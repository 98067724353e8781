# congotchi — a Dafny model of the conga-line rules

congotchi is a grid puzzle. Gotchis stand in cells and face one of four
directions. A gotchi follows the gotchi in the cell it faces, unless that one
stares straight back. Followers form conga lines. The player drags objects
around the grid, clicks to rotate gotchis or to summon portals, and pays
for each move from a set of counters. This project models and proves
properties of the rules that decide these things:

- **Who follows whom.** `findLeader`, `findFollowers` and the stare veto.
  The rotations `rotateCW` / `rotateACW`. How `getCongaChain` collects a
  chain: depth-first, pre-order, slot order down, left, up, right (module
  `Conga`, and `GoGotchi.Gotchi`).
- **The status changes of a conga move and a conga jump.** These are written
  as explicit start and completion events (`GoGotchi.Apply`, `GoGotchi.Run`
  and the `Gotchi` methods that fire them).
- **The drag rule.** It is shared by the gotchi's, the milkshake's and the
  scene-wide drag handlers (module `DragProtocol`):
  - the origin is captured at drag start;
  - the axis is locked once;
  - each side's limit opens by one cell size only towards an in-range
    empty neighbour;
  - a move is accepted only strictly inside the limits (it is not clamped);
  - at drag end, a counter is charged only when the cell changed.

  Each handler is a class with `DragStart` / `Drag` / `DragEnd` methods
  (`GoGotchi.Gotchi`, `GoMilkshake.Milkshake`, `InputHandling.InputHandler`).
- **Click routing** in the scene-wide input handler. A pointer up less than
  200 ms after the pointer down is a click. A click summons a portal on an
  empty cell and charges PORTAL. It then rotates the first gotchi recorded in
  the lifted cell only when that gotchi was also in the pressed cell, and
  charges ROTATE.
- **The score panel.** The integer score. Its text: the decimal of the score,
  left-padded with '0' to ten characters. The texture for 0..3 stars
  (module `ScoreBoard`).

The level (`GridLevel`) is seen through a `Board` value. It gives:
- the row and column counts;
- the cell size;
- the kind of object in each cell (a cell with no entry has no object);
- the facing of every gotchi.

`isGridPositionEmpty` is `Board.IsEmpty`. A gotchi reference stored in a slot
is the gotchi's `GotchiId`. The base class `GridObject` is a small class
holding the recorded cell and the pixel position. Each object class holds
one.

The follower slots that `getCongaChain` walks can form a cycle, and the
source then recurses without bound, until the JavaScript stack overflows. The model therefore takes the acyclicity the
source assumes as a precondition: a ranking (`Conga.Ranked`) that drops along
every stored follower link. The ranking is the termination measure of
`Conga.ChainOf` and of `GoGotchi.Gotchi.GetCongaChain`. Two lemmas show that
cycles do arise:
- `Conga.StaringPairIsCyclic`: two gotchis staring at each other record each
  other as followers, because `findFollowers` applies no stare veto;
- `Conga.SquareIsCyclic`: four gotchis facing round a 2x2 square.

Notes on what the code does:
- **The chain runs towards the root's followers.** A follower is a gotchi
  that looks back at the root. In a column whose top gotchi faces LEFT and
  whose other two gotchis face UP, the chain of the top is [middle, bottom]
  and the chain of the bottom is empty (`Conga.ColumnChain`).
- **There is no cycle guard.** Nothing in `getCongaChain` detects a cycle,
  and the stared and square configurations above are cyclic.
- **Portal and rotate are not exclusive.** A click first tries the portal,
  then the rotation; neither is an "otherwise" of the other.
- **The scene-wide guards are as written.** They use `row > 1`, `row < rows`,
  `col > 1` and `col < cols`, unlike the per-object handlers'
  `row > 0` / `row < rows - 1`. `DragProtocol.GuardsDisagree` shows where
  they differ.
- **CONGOTCHING and WAITING are declared but never set in these files.** A conga move keeps
  the status it found until its completion sets READY.

## Model

| member | source | states |
|---|---|---|
| Grid.Clockwise | app/src/game/objects/grid-objects/go-gotchi.ts:326-332 | rotateCW turns a quarter clockwise on a screen whose rows grow downwards: the new row step is the old column step, and the new column step is minus the old row step |
| Grid.Anticlockwise | app/src/game/objects/grid-objects/go-gotchi.ts:334-340 | rotateACW turns a quarter anticlockwise: the new row step is minus the old column step, and the new column step is the old row step |
| Grid.ClockwiseInverse | app/src/game/objects/grid-objects/go-gotchi.ts:326-340 | rotateACW undoes rotateCW and rotateCW undoes rotateACW |
| Grid.FourQuarterTurns | app/src/game/objects/grid-objects/go-gotchi.ts:326-332 | four clockwise turns restore the facing; two give the opposite facing |
| Grid.Opposite | app/src/game/objects/grid-objects/go-gotchi.ts:238-244 | the facing that counts as "looking at us" steps back along the same line; both row and column steps change sign |
| Grid.StepBack | app/src/game/objects/grid-objects/go-gotchi.ts:238-244 | one step along d and one along e come back to the start exactly when e is the opposite of d |
| Grid.GridObject.SetGridPosition | app/src/game/objects/grid-objects/go-gotchi.ts:150 | the object's recorded cell becomes the given cell |
| Conga.LeaderOf | app/src/game/objects/grid-objects/go-gotchi.ts:219-250 | the leader is set exactly when the faced cell holds a gotchi that does not look back into our cell, and then it is that cell's gotchi |
| Conga.FollowerFrom | app/src/game/objects/grid-objects/go-gotchi.ts:252-268 | definition with no contract of its own: one slot of findFollowers, the gotchi in the given cell when it faces the given way, otherwise nothing; FollowersOfMeaning states what the four slots mean |
| Conga.FollowersOf | app/src/game/objects/grid-objects/go-gotchi.ts:252-269 | findFollowers yields four slots, one per direction |
| Conga.FollowersOfMeaning | app/src/game/objects/grid-objects/go-gotchi.ts:252-269 | slot i (down, left, up, right) is filled exactly when the neighbour in that direction is a gotchi looking back into our cell, and then it holds that gotchi; each slot is decided alone |
| Conga.StareVeto | app/src/game/objects/grid-objects/go-gotchi.ts:235-246 | two gotchis facing each other are leaders of neither |
| Conga.LeaderIffFollower | app/src/game/objects/grid-objects/go-gotchi.ts:219-269 | gotchi g next to a has a as its leader exactly when g is in a's slot for that side and a does not face g: follower links and leader links agree except for the stare veto |
| Conga.ChainMembers | app/src/game/objects/grid-objects/go-gotchi.ts:441-464 | under acyclicity the chain holds exactly the transitive followers of the gotchi |
| Conga.BranchMembers | app/src/game/objects/grid-objects/go-gotchi.ts:443-447 | the part of the chain one slot adds holds exactly that slot's follower and its transitive followers |
| Conga.ChainRanksBelow | app/src/game/objects/grid-objects/go-gotchi.ts:441-464 | every gotchi in the chain ranks strictly below its root, so the root never appears in its own chain |
| Conga.BranchRanksBelow | app/src/game/objects/grid-objects/go-gotchi.ts:443-447 | every gotchi one slot adds to the chain ranks strictly below the root |
| Conga.ChainIndependentOfRank | app/src/game/objects/grid-objects/go-gotchi.ts:441-464 | the chain depends on the stored follower slots only, not on which ranking witnesses acyclicity |
| Conga.BranchIndependentOfRank | app/src/game/objects/grid-objects/go-gotchi.ts:443-447 | the part one slot adds does not depend on the ranking |
| Conga.ChainOf | app/src/game/objects/grid-objects/go-gotchi.ts:441-464 | definition with no contract of its own: the specification of getCongaChain, the blocks of the four slots in the order down, left, up, right; ChainMembers, ChainRanksBelow and ChainStartsWithFirstSlot state what it holds |
| Conga.Branch | app/src/game/objects/grid-objects/go-gotchi.ts:443-447 | definition with no contract of its own: one slot's block, the follower and then its own chain, or nothing for an empty slot |
| Conga.ChainEmptyIffNoFollower | app/src/game/objects/grid-objects/go-gotchi.ts:289-293 | the chain is empty exactly when hasFollower is false |
| Conga.ChainStartsWithFirstSlot | app/src/game/objects/grid-objects/go-gotchi.ts:441-464 | the chain starts with the follower in the lowest filled slot |
| Conga.CycleUnranked | app/src/game/objects/grid-objects/go-gotchi.ts:441-464 | a path of stored follower links that returns to its start admits no ranking, so the recursion has no measure |
| Conga.StaringPairFollowers | app/src/game/objects/grid-objects/go-gotchi.ts:252-269 | two adjacent gotchis facing each other store each other as followers |
| Conga.StaringPairIsCyclic | app/src/game/objects/grid-objects/go-gotchi.ts:441-464 | the stored links of the staring pair admit no ranking: getCongaChain on them never ends |
| Conga.StaringPairLeaderless | app/src/game/objects/grid-objects/go-gotchi.ts:235-246 | neither gotchi of the staring pair gets a leader |
| Conga.SquareIsCyclic | app/src/game/objects/grid-objects/go-gotchi.ts:252-269 | four gotchis facing round a 2x2 square store follower links in a four-cycle that admits no ranking |
| Conga.ColumnFollowersOf1 | app/src/game/objects/grid-objects/go-gotchi.ts:252-256 | in the column, the top gotchi's down slot holds the middle one and its other slots are empty |
| Conga.ColumnFollowersOf2 | app/src/game/objects/grid-objects/go-gotchi.ts:252-256 | in the column, the middle gotchi's down slot holds the bottom one |
| Conga.ColumnFollowersOf3 | app/src/game/objects/grid-objects/go-gotchi.ts:252-269 | in the column, the bottom gotchi has no follower |
| Conga.ColumnFootLeader | app/src/game/objects/grid-objects/go-gotchi.ts:219-250 | in the column, the bottom gotchi's leader is the middle one |
| Conga.ColumnMiddleLeader | app/src/game/objects/grid-objects/go-gotchi.ts:219-250 | in the column, the middle gotchi's leader is the top one |
| Conga.ColumnHeadLeader | app/src/game/objects/grid-objects/go-gotchi.ts:219-250 | in the column, the top gotchi faces an empty cell and has no leader |
| Conga.ColumnChain | app/src/game/objects/grid-objects/go-gotchi.ts:441-464 | the column's links are acyclic; the top gotchi's chain is [middle, bottom] and the bottom one's is empty |
| Conga.LeaderScenarios | app/src/game/objects/grid-objects/go-gotchi.ts:235-246 | a gotchi whose faced neighbour stares back has no leader; one whose neighbour looks sideways has it as leader |
| DragProtocol.ObjectSideOpen | app/src/game/objects/grid-objects/go-gotchi.ts:120-123 | for an object inside the grid, the per-object guards open a side exactly when the neighbour is inside the grid and empty |
| DragProtocol.SceneSideOpen | app/src/game/objects/input-handler.ts:117-120 | for an object inside the grid, the scene-wide guards open a side exactly when the neighbour's moving coordinate is in 1..rows (1..cols) and the neighbour is empty |
| DragProtocol.ObjectLimits | app/src/game/objects/grid-objects/go-gotchi.ts:120-130 | the limits computed with the per-object guards: origin ± cell size on open sides, the origin itself on closed ones |
| DragProtocol.SceneLimits | app/src/game/objects/input-handler.ts:117-127 | the same with the scene-wide guards |
| DragProtocol.ClosedSideAtOrigin | app/src/game/objects/grid-objects/go-gotchi.ts:127-130 | a side that is not open keeps its limit at the origin |
| DragProtocol.LockAxis | app/src/game/objects/grid-objects/go-gotchi.ts:132-135 | an assigned axis is kept; an unassigned one becomes X exactly when the horizontal distance from the origin is strictly larger than the vertical one, and Y otherwise |
| DragProtocol.TieLocksY | app/src/game/objects/grid-objects/go-gotchi.ts:134 | a first sample at equal distances on both axes locks Y |
| DragProtocol.StepMeaning | app/src/game/objects/grid-objects/go-gotchi.ts:132-142 | one sample locks the axis and never writes the other coordinate; it changes the locked coordinate only to the sample and only strictly inside the limits, and always when the sample is strictly inside |
| DragProtocol.SessionAxis | app/src/game/objects/grid-objects/go-gotchi.ts:132-135 | the axis of a whole drag session is the one its first sample locks |
| DragProtocol.SessionKeepsOtherCoordinate | app/src/game/objects/grid-objects/go-gotchi.ts:138-142 | once the axis is locked, a session never changes it and never writes the other coordinate |
| DragProtocol.SessionStaysInside | app/src/game/objects/grid-objects/go-gotchi.ts:138-142 | a session that starts inside ends with each coordinate at the origin or strictly inside its limits |
| DragProtocol.BlockedStaysPut | app/src/game/objects/grid-objects/go-gotchi.ts:120-142 | when both sides of an axis are blocked, no session moves the object along that axis |
| DragProtocol.GuardsDisagree | app/src/game/objects/input-handler.ts:117-120 | from row 1 the per-object guards open upwards exactly when the row-0 cell is empty, while the scene-wide guards never do; from the last row the per-object guards never open downwards, while the scene-wide guards let the emptiness query about the cell past the last row decide |
| DragProtocol.InRange | app/src/game/objects/grid-objects/go-gotchi.ts:120-123 | definition with no contract of its own: the range half of each side's guard, as each copy writes it |
| DragProtocol.SideOpen | app/src/game/objects/grid-objects/go-gotchi.ts:120-123 | definition with no contract of its own: the range guard and the emptiness query together; ObjectSideOpen and SceneSideOpen state what each copy opens |
| DragProtocol.DragLimits | app/src/game/objects/grid-objects/go-gotchi.ts:125-130 | definition with no contract of its own: the four limits around the origin; ObjectLimits and SceneLimits state them side by side |
| DragProtocol.Step | app/src/game/objects/grid-objects/go-gotchi.ts:132-142 | definition with no contract of its own: one drag sample; StepMeaning states what it does to the axis and the coordinates |
| DragProtocol.Session | app/src/game/objects/grid-objects/go-gotchi.ts:111-145 | definition with no contract of its own: the samples of one drag applied in order; SessionAxis, SessionKeepsOtherCoordinate, SessionStaysInside and BlockedStaysPut state what a session does |
| PlayerStats.ChargeIfMoved | app/src/game/objects/grid-objects/go-gotchi.ts:157-162 | the charged counter drops by exactly one exactly when the final cell differs from the start cell; no other counter changes |
| PlayerStats.Player.GetStat | app/src/game/objects/grid-objects/go-gotchi.ts:117 | definition with no contract of its own: the current value of one counter |
| PlayerStats.Player.AdjustStat | app/src/game/objects/grid-objects/go-gotchi.ts:160 | the one counter moves by exactly delta, every other counter keeps its value, and every counter stays present |
| GoGotchi.Apply | app/src/game/objects/grid-objects/go-gotchi.ts:351-402 | a move landing sets facing newDir and READY; a jump start sets JUMPING and queues the status it found; a jump landing writes back the oldest queued status |
| GoGotchi.Run | app/src/game/objects/grid-objects/go-gotchi.ts:351-402 | a sequence of events never changes newDir, changes the facing only through a move landing, and always runs when it holds no jump landing |
| GoGotchi.RunDefined | app/src/game/objects/grid-objects/go-gotchi.ts:383-402 | a sequence of events runs exactly when every jump landing finds a jump in the air: the queued ones plus those started earlier in the sequence, less those landed earlier |
| GoGotchi.JumpsQueue | app/src/game/objects/grid-objects/go-gotchi.ts:388-390 | n jumps in a row queue the original status once and then JUMPING n-1 times |
| GoGotchi.LandAll | app/src/game/objects/grid-objects/go-gotchi.ts:400-402 | landing every jump in the air leaves the status the newest one captured |
| GoGotchi.NestedJumps | app/src/game/objects/grid-objects/go-gotchi.ts:383-402 | after n overlapping jumps and their landings the status is the original for n = 1 and JUMPING for n ≥ 2 |
| GoGotchi.MoveDuringJump | app/src/game/objects/grid-objects/go-gotchi.ts:351-402 | a move that lands during a jump keeps its facing, but the jump's landing replaces READY with the status the jump captured |
| GoGotchi.Gotchi.constructor | app/src/game/objects/grid-objects/go-gotchi.ts:29-54 | a new gotchi faces DOWN, has no leader or follower, has no axis assigned, has newDir DOWN and is READY |
| GoGotchi.Gotchi.FindLeader | app/src/game/objects/grid-objects/go-gotchi.ts:219-250 | the stored leader becomes LeaderOf the gotchi's cell and facing |
| GoGotchi.Gotchi.FindFollowers | app/src/game/objects/grid-objects/go-gotchi.ts:252-269 | the stored slots become FollowersOf the gotchi's cell |
| GoGotchi.Gotchi.HasLeader | app/src/game/objects/grid-objects/go-gotchi.ts:280-283 | definition with no contract of its own: true exactly when a leader is stored |
| GoGotchi.Gotchi.HasFollower | app/src/game/objects/grid-objects/go-gotchi.ts:289-293 | the flag raised over the slots is true exactly when some slot is filled |
| GoGotchi.Gotchi.RotateCW | app/src/game/objects/grid-objects/go-gotchi.ts:326-332 | the facing turns a quarter clockwise |
| GoGotchi.Gotchi.RotateACW | app/src/game/objects/grid-objects/go-gotchi.ts:334-340 | the facing turns a quarter anticlockwise |
| GoGotchi.Gotchi.DragStart | app/src/game/objects/grid-objects/go-gotchi.ts:103-108 | the start cell and the pixel origin are recorded |
| GoGotchi.Gotchi.Drag | app/src/game/objects/grid-objects/go-gotchi.ts:111-145 | without a player or without MOVE_GOTCHI points nothing changes; otherwise the axis and position become one Step with the per-object limits around the origin |
| GoGotchi.Gotchi.LockAndMove | app/src/game/objects/grid-objects/go-gotchi.ts:132-142 | the axis and position become Step of the old ones for the given limits |
| GoGotchi.Gotchi.DragEnd | app/src/game/objects/grid-objects/go-gotchi.ts:147-163 | the final cell is recorded, the axis is released and MOVE_GOTCHI is charged as ChargeIfMoved says |
| GoGotchi.Gotchi.CongaIntoPosition | app/src/game/objects/grid-objects/go-gotchi.ts:351-365 | the gotchi's recorded cell becomes the target |
| GoGotchi.Gotchi.CongaMoveLanded | app/src/game/objects/grid-objects/go-gotchi.ts:359-362 | the completion of a conga move applies the MoveLanded event: facing newDir, READY |
| GoGotchi.Gotchi.CongaJump | app/src/game/objects/grid-objects/go-gotchi.ts:383-390 | a jump applies the JumpStarted event: JUMPING, status captured |
| GoGotchi.Gotchi.CongaJumpLanded | app/src/game/objects/grid-objects/go-gotchi.ts:400-402 | the completion of the oldest jump applies the JumpLanded event |
| GoGotchi.Gotchi.GetStatus | app/src/game/objects/grid-objects/go-gotchi.ts:466-468 | definition with no contract of its own: the stored status |
| GoGotchi.Gotchi.CalcCongaChain | app/src/game/objects/grid-objects/go-gotchi.ts:435-438 | the array gets exactly the chain appended |
| GoGotchi.Gotchi.GetCongaChain | app/src/game/objects/grid-objects/go-gotchi.ts:441-464 | the array passed in is kept as a prefix and the gotchi's chain (ChainOf the stored slots) is appended after it |
| GoGotchi.Gotchi.PushFollower | app/src/game/objects/grid-objects/go-gotchi.ts:443-447 | one slot's block appends that slot's follower and then its chain, or nothing for an empty slot |
| GoGotchi.GotchiChain.Push | app/src/game/objects/grid-objects/go-gotchi.ts:445 | push appends one gotchi |
| GoMilkshake.Milkshake.constructor | app/src/game/objects/grid-objects/go-milkshake.ts:18-27 | a new milkshake is CLOSED with no axis assigned |
| GoMilkshake.Milkshake.SetStatus | app/src/game/objects/grid-objects/go-milkshake.ts:122-130 | getStatus answers the status last set |
| GoMilkshake.Milkshake.GetStatus | app/src/game/objects/grid-objects/go-milkshake.ts:122-124 | definition with no contract of its own: the stored status, as SetStatus's contract uses it |
| GoMilkshake.Milkshake.DragStart | app/src/game/objects/grid-objects/go-milkshake.ts:59-64 | the start cell and the pixel origin are recorded |
| GoMilkshake.Milkshake.Drag | app/src/game/objects/grid-objects/go-milkshake.ts:67-101 | without a player or without MOVE_AGGRO points nothing changes; otherwise one Step with the per-object limits |
| GoMilkshake.Milkshake.LockAndMove | app/src/game/objects/grid-objects/go-milkshake.ts:88-98 | the axis and position become Step of the old ones for the given limits |
| GoMilkshake.Milkshake.DragEnd | app/src/game/objects/grid-objects/go-milkshake.ts:103-119 | the final cell is recorded, the axis is released and MOVE_BOOSTER is charged as ChargeIfMoved says |
| GoMilkshake.GateNeverCharged | app/src/game/objects/grid-objects/go-milkshake.ts:103-119 | a milkshake drag end never changes MOVE_AGGRO, the counter that gates it, and charges MOVE_BOOSTER by one when the cell changed |
| InputHandling.FirstAt | app/src/game/objects/input-handler.ts:82-98 | the index the search stops at: the first gotchi recorded in the lifted cell, or the end |
| InputHandling.PlacesPortal | app/src/game/objects/input-handler.ts:61-62 | definition with no contract of its own: the PORTAL counter is nonzero (negative counts too) and the cell is empty; NoPortalOnGotchi and PointerUp use it |
| InputHandling.NoPortalOnGotchi | app/src/game/objects/input-handler.ts:61-62 | a click never summons a portal on a cell a gotchi occupies |
| InputHandling.InputHandler.constructor | app/src/game/objects/input-handler.ts:17-43 | the handler starts with the level's gotchis and portals, no axis assigned and the origin at 0 |
| InputHandling.InputHandler.PointerDown | app/src/game/objects/input-handler.ts:45-49 | the time and the pressed cell are recorded |
| InputHandling.InputHandler.PointerUp | app/src/game/objects/input-handler.ts:52-102 | a late pointer up changes nothing; a click appends a portal and charges PORTAL exactly when PORTAL is nonzero and the cell is empty, then rotates the first gotchi in the lifted cell and charges ROTATE exactly when ROTATE is positive and that gotchi was also in the pressed cell; no other gotchi turns |
| InputHandling.InputHandler.ClickPortal | app/src/game/objects/input-handler.ts:61-78 | the portal half of a click |
| InputHandling.InputHandler.ClickRotate | app/src/game/objects/input-handler.ts:81-99 | the rotate half of a click: at most one gotchi, the first recorded in the lifted cell, is examined |
| InputHandling.InputHandler.DragStart | app/src/game/objects/input-handler.ts:105-109 | the dragged object's cell and pixel origin are recorded |
| InputHandling.InputHandler.Drag | app/src/game/objects/input-handler.ts:112-141 | without a player or without MOVE points nothing changes; otherwise one Step with the scene-wide limits |
| InputHandling.InputHandler.LockAndMove | app/src/game/objects/input-handler.ts:129-139 | the axis and position become Step of the old ones for the given limits |
| InputHandling.InputHandler.DragEnd | app/src/game/objects/input-handler.ts:144-158 | the final cell is recorded, the axis is released and MOVE is charged as ChargeIfMoved says |
| ScoreBoard.NatToDecimal | app/src/game/objects/gui-score-board.ts:72 | toString of a natural number: at least one digit, all of them digits, no leading zero |
| ScoreBoard.IntToString | app/src/game/objects/gui-score-board.ts:72 | toString of an integer: a leading '-' exactly when the number is negative, then only digits, and those digits denote the number's magnitude |
| ScoreBoard.DecimalRoundTrip | app/src/game/objects/gui-score-board.ts:72 | reading the decimal back gives the number |
| ScoreBoard.DecimalLength | app/src/game/objects/gui-score-board.ts:72 | the decimal has at most k digits exactly when the number is below 10^k |
| ScoreBoard.PadStart | app/src/game/objects/gui-score-board.ts:72 | padStart keeps a string that is long enough; otherwise it prefixes the pad character up to the width, keeping the string as the suffix |
| ScoreBoard.ScoreText | app/src/game/objects/gui-score-board.ts:72 | the score text has at least ten characters: the score's toString at the end and only '0' before it |
| ScoreBoard.ScoreTextInRange | app/src/game/objects/gui-score-board.ts:72 | for 0 ≤ score < 10^10 the text is exactly ten digits and reads back as the score |
| ScoreBoard.LongScoreUnpadded | app/src/game/objects/gui-score-board.ts:72 | a score whose decimal already has ten or more characters is shown unpadded |
| ScoreBoard.NegativeScoreText | app/src/game/objects/gui-score-board.ts:72 | the zeros go before the sign: -5 is shown as "00000000-5" |
| ScoreBoard.ZeroScoreText | app/src/game/objects/gui-score-board.ts:57 | the text of score 0 is the initial text "0000000000" |
| ScoreBoard.StarTextureBijective | app/src/game/objects/gui-score-board.ts:75-80 | every star level 0..3 has its own texture and every texture belongs to some level |
| ScoreBoard.StarTextureFor | app/src/game/objects/gui-score-board.ts:75-80 | the chosen texture shows exactly the requested number of stars |
| ScoreBoard.GuiScoreBoard.constructor | app/src/game/objects/gui-score-board.ts:22-68 | a new panel has score 0, the text "0000000000" and no stars |
| ScoreBoard.GuiScoreBoard.AdjustScore | app/src/game/objects/gui-score-board.ts:70-73 | the score moves by exactly delta and the text is the padded decimal of the new score |
| ScoreBoard.GuiScoreBoard.SetStarScore | app/src/game/objects/gui-score-board.ts:75-80 | only the star texture changes, to the level's texture |
| ScoreBoard.GuiScoreBoard.ResetScore | app/src/game/objects/gui-score-board.ts:82-86 | the score is 0, the text "0000000000" and the stars none |
| ScoreBoard.ResetThenAdjust | app/src/game/objects/gui-score-board.ts:82-86 | a reset followed by adjustScore(d) leaves the score at d, shown as its padded text |

## Left out

- Animation, tweens, textures, physics and depth. The model keeps only the
  completion callbacks, as events: `CongaMoveLanded` and `CongaJumpLanded`.
  The anims played by `setDirection` and the texture `setStatus` sets for
  OPEN are not modelled.
- Jump completions are taken in start order, first in first out. The jump
  tweens all take the same fixed time, so the oldest lands first. The
  engine's timing is not modelled.
- Randomness: `setRandomDirection` and the random initial `congaSide`, with
  the tilt tween that flips it.
- `congaIntoPortal`: a move whose completion adds 20 to the score and
  destroys the gotchi. It is entirely within the tween completion, so it is
  not modelled.
- The wall clock. `new Date().getTime()` is the `now` parameter of
  `PointerDown` / `PointerUp`.
- The inside of `GridLevel`, which is not part of this model:
  - `getGridPositionFromXY` is replaced by the cell passed in (`finalCell`,
    `gp`);
  - `setGridPosition` only records the cell in the object; its board
    occupancy update is not modelled;
  - the `Board` a handler reads is a snapshot and is not updated by the
    handler's own changes;
  - the new portal object's registration with the level is not modelled:
    portals are cells in `portals`.
- How `isGridPositionEmpty` answers for a cell outside the grid. `Board.IsEmpty`
  calls every cell without an entry empty, wherever it lies. The scene-wide
  guards do ask about the cell one past the last row or column, so the
  lemmas that cover it state the opening in terms of that answer
  (`DragProtocol.SceneSideOpen`, `DragProtocol.GuardsDisagree`).
- Positions are taken as value copies. `ogDragGridPosition` (go-gotchi.ts,
  go-milkshake.ts) and `activeDragObjectGridPosition` are `Pos` values, so a
  later `setGridPosition` cannot change them. Whether `getGridPosition`
  returns the object's own position record, which would then be shared, is
  decided by the `GridObject` source, which is not part of this model.
- The Player class is not part of this model. Its counters are a map
  (`PlayerStats.Player`), with `getStat` / `adjustStat` as a lookup and an
  update.
- Phaser event wiring, and the scene-wide and per-object drag handlers both
  firing for one drag; the methods model each handler on its own.
- The per-object pointerdown / pointerup handlers of the gotchi and the
  milkshake. They record a timer, and their click branch is empty.
- GUI layout and motion: `levelOver`, `returnHome`, `update` and font
  sizing. The milkshake and input handler `update` methods are left out too.
- Floating point. Pixel coordinates and the score are integers.
  `Number.prototype.toString` is modelled for integers only: no fractions
  and no exponent form for very large magnitudes.
- The `grenadeGOs`, `milkshakeGOs` and `cactiGOs` lists of the input handler.
  The click logic does not read them.
- GoGotchi.Gotchi.GetCongaChain: requires a ranking of the stored follower
  slots, i.e. acyclic links. Without one the source recurses without bound, and the
  cyclic cases are the subject of `Conga.StaringPairIsCyclic` and
  `Conga.SquareIsCyclic`.
- GoGotchi.Gotchi.CongaIntoPosition: sets the target cell at once; the
  movement in between is animation.
