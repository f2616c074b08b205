# anankefy-mnemofy task galaxy and territory map, modelled in Dafny

The application organises a project as a *galaxy* of tasks. A galaxy holds
sectors, sectors hold systems, systems hold planets and planets hold moons.
The model covers the following parts:

- **Task tree** (`tree.dfy`, `checking.dfy`, `task_spec.dfy`,
  `ordering.dfy`, `tasks.dfy`). The galaxy is held as one object,
  `Tasks.Galaxy`, with one map-valued field per task field (kind,
  children, parent, order, the checked/closed/removed flags and the
  counters). This follows `Task` and the methods injected by
  `task-utils.ts`, because the source updates these fields in place:
  - `setChecked` propagates down to every descendant when checking. When
    unchecking, it also propagates up through the ancestors.
  - `setClosed` and `propagateRemoved`.
  - `addChild` and `removeChild`: the order step, the stable sort, the
    `findIndex` splice and the renumbering.
  - `getFlattenedChildren`, the child counters and `getDifficulty`.
  - The galaxy counters, kept by `updateGalaxyStats`.
  - The backup helpers `backupChecked` and
    `backupAllSystemsBeforeCoordsChange`.

  Each method is proved against a ghost function of the tree (`After`,
  `Sub`, `Flatten`, `Census`, `Difficulty`, …). The lemmas then state
  what those functions mean. For example, checking marks the whole
  subtree, and unchecking unmarks the subtree and its ancestors. The
  checked set stays consistent, the flattened list has no repeats, and
  the counters count the tasks.
- **Records** (`records.dfy`): the `create*` and `addChildTo*` helpers of
  `galaxy.ts`, `sector.ts`, `system.ts`, `planet.ts` and `moon.ts`.
  These build a record tree from stored data and keep the galaxy's eight
  `nbr*` counters equal to the totals of the data.
- **Undo history** (`backup.dfy`, `backup_utils.dfy`): `BackupStep` and
  `backup` / `rollback` / `rollforward` / `playBackupActions`. They keep
  a bounded stack of 9 undo steps and a redo stack. Playback is proved
  equal to a pure `Replay` of the actions.
- **Space** (`vec2d.dfy`, `multiverse.dfy`, `grid.dfy`, `control.dfy`,
  `encoding.dfy`, `cases.dfy`, `contour.dfy`, `space_handler.dfy`):
  - `SpaceHandler` lays a grid of shared control nodes over the map.
  - It gives each interior node the sector with the strongest influence,
    and an owner.
  - It encodes each square's corners per sector as 4-bit
    marching-squares states.
  - It emits contour fragments from the 16-case table into each sector's
    point maps, reusing the edge points cached on shared nodes.
- **Shapes** (`fragments.dfy`, `shape.dfy`, `rings.dfy`, `overlap.dfy`,
  `territory.dfy`):
  - JS `Map`s with insertion order.
  - `buildShapes` traces the fragment maps into closed rings.
  - `checkOverlap` sorts the shapes by their left edge, keeps the top
    ones and records contained shapes as holes.
  - The sector's `add` / `reset` / `computeShapes`.

Inputs the core takes from outside are parameters of the model:
- the current date (`moment`);
- the id of a new galaxy (`uuid`);
- the influence function of a system on a grid node;
- the interpolation offset of a contour point.

## Model

All source paths are relative to the repository root.

| member | source | states |
|---|---|---|
| Common.Owner.Index | src/lib/models/space/space-handler.ts:236-237 | the slot of a per-sector state that an owner's corner value goes to; ENNEMY and USER get different slots, and both differ from TERRITORY |
| Common.TaskType.Level | src/lib/models/task/task-enums.ts:4-10 | the depth of a task kind in the tree: galaxy 0 through moon 4 |
| TaskTree.ChildLevel | src/lib/models/task/task.ts:209-215 | a listed child links back to its parent and sits one level below it |
| TaskTree.Up | src/lib/models/task/task-utils.ts:235-252 | climbing parent links from a task reaches a task of the requested level |
| TaskTree.UpUp | src/lib/models/task/task-utils.ts:235-252 | climbing in two stages is the same as climbing in one |
| TaskTree.FlattenBelow | src/lib/models/task/task.ts:261-268 | every task in the flattened list of `t` is a descendant of `t`, deeper than `t` |
| TaskTree.PrefixBelow | src/lib/models/task/task.ts:261-268 | the flattened list of the first n children lists only descendants of those children |
| TaskTree.FlattenDistinct | src/lib/models/task/task.ts:261-268 | getFlattenedChildren lists no task twice |
| TaskTree.PrefixDistinct | src/lib/models/task/task.ts:261-268 | the flattened list of the first n children has no repeats |
| TaskTree.PrefixApart | src/lib/models/task/task.ts:261-268 | the subtree of the n-th child does not meet the listing of the earlier children |
| TaskTree.PrefixIn | src/lib/models/task/task.ts:261-268 | the listing of the first n children is part of the whole listing |
| TaskTree.ChildSub | src/lib/models/task/task.ts:261-268 | the subtree of a child lies inside the subtree of its parent |
| TaskTree.Reparent | src/lib/models/task/task.ts:209 | setting `item.parent = this` for an item no task lists keeps the tree well formed |
| TaskTree.Relist | src/lib/models/task/task.ts:214-217 | replacing a child list by any repeat-free list of the same-parent children keeps the tree well formed |
| TaskTree.ChildrenOk | src/lib/models/task/task.ts:214 | every listed child links back to the task that lists it |
| Checking.AncAbove | src/lib/models/task/task-utils.ts:235-252 | every ancestor of a task is a task of a smaller level |
| Checking.SubUp | src/lib/models/task/task-utils.ts:116-132 | a task of a subtree climbs back to the subtree's top |
| Checking.SubTrans | src/lib/models/task/task-utils.ts:116-132 | a subtree contains the subtree of each of its tasks |
| Checking.Member | src/lib/models/task/task.ts:261-268 | a task in the listing of the first n children lies in the subtree of one of those children |
| Checking.ParentInSub | src/lib/models/task/task.ts:261-268 | the parent of a listed descendant is in the subtree too |
| Checking.SiblingsApart | src/lib/models/task/task.ts:261-268 | the subtrees of two different children do not overlap, and neither contains the parent |
| Checking.BelowStep | src/lib/models/task/task-utils.ts:116-132 | one more child adds exactly its subtree, disjoint from the earlier ones |
| Checking.AllBelow | src/lib/models/task/task-utils.ts:116-132 | a subtree is its top plus the subtrees of all its children |
| Checking.ClosedDown | src/lib/models/task/task-utils.ts:116-132 | in a consistent checked set, a checked task has its whole subtree checked |
| Checking.CheckSubtree | src/lib/models/task/task-utils.ts:116-132 | checking a task of a consistent subtree checks exactly that subtree |
| Checking.CheckChildren | src/lib/models/task/task-utils.ts:116-132 | the children loop of setChecked(true) checks exactly the subtrees of those children |
| Checking.UncheckSubtree | src/lib/models/task/task-utils.ts:116-132 | unchecking with propagation, under an unchecked parent, unchecks exactly the subtree |
| Checking.UncheckChildren | src/lib/models/task/task-utils.ts:116-132 | the children loop of setChecked(false, true) unchecks exactly the children's subtrees |
| Checking.UncheckUp | src/lib/models/task/task-utils.ts:124-126 | setChecked(false, false) unchecks the task and every ancestor, and nothing else |
| Checking.NoneAbove | src/lib/models/task/task-utils.ts:235-252 | above an unchecked task of a consistent chain, nothing is checked |
| Checking.AttachedChain | src/lib/models/task/task-utils.ts:235-252 | a consistent checked set is consistent along the chain of ancestors of an attached task |
| Checking.CheckAll | src/lib/models/task/task-utils.ts:116-132 | from a consistent state, setChecked(true, p) checks the subtree of `t` and nothing else |
| Checking.UncheckAll | src/lib/models/task/task-utils.ts:116-132 | from a consistent state, setChecked(false, true) on a checked task unchecks its subtree and all its ancestors, and nothing else |
| Checking.UncheckAlone | src/lib/models/task/task-utils.ts:116-126 | from a consistent state, setChecked(false, false) unchecks the task and its ancestors only |
| Checking.SubBelowAnc | src/lib/models/task/task-utils.ts:116-132 | a task's subtree and its ancestors are disjoint |
| Checking.AncClosed | src/lib/models/task/task-utils.ts:235-252 | the parent of an ancestor is an ancestor |
| Checking.KeepsConsistent | src/lib/models/task/task-utils.ts:47-55 | every setChecked keeps the invariant "a checked task has all its children checked" |
| Checking.UpOnly | src/lib/models/task/task-utils.ts:235-252 | setChecked(false, false) depends only on the parent links, not on the child lists |
| Checking.AfterMonotone | src/lib/models/task/task-utils.ts:47-55 | checking only adds checked flags; unchecking only removes them |
| Checking.ChildrenMonotone | src/lib/models/task/task-utils.ts:116-132 | the same for the children loop |
| Checking.AfterSettles | src/lib/models/task/task-utils.ts:47-55 | after setChecked(v, p) the task's flag is v, and repeating the call changes nothing |
| TaskSpec.Stats.BumpDone | src/lib/models/task/task-utils.ts:116-132 | moving the completed counter of a sector, system or planet touches that counter only; galaxies and moons have none |
| TaskSpec.Marked | src/lib/models/task/task.ts:187-192 | setting a flag on a set of tasks adds them; clearing it removes them |
| TaskSpec.MarkedTwice | src/lib/models/task/task.ts:187-192 | marking two sets in turn marks their union |
| TaskSpec.ResyncSlack | src/lib/models/task/task-utils.ts:116-132 | the completed counters keep their distance from the true count of checked tasks exactly when they are moved by the change in that count |
| TaskSpec.SlackBump | src/lib/models/task/task-utils.ts:116-132 | proof helper for the counter updates of setChecked: moving a counter moves its distance from the true count by the same amount |
| TaskSpec.SlackFlip | src/lib/models/task/task-utils.ts:116-132 | flipping one task's flag and moving its kind's counter by ±1 keeps the distance |
| TaskSpec.DoneAdd | src/lib/models/task/task-utils.ts:116-132 | checking one more task adds one to the count of its kind |
| TaskSpec.CountInBound | src/lib/models/task/task.ts:279-285 | the number of checked children is at most the number of children; it is all of them or none exactly when all or none are checked |
| TaskSpec.RoundDiv | src/lib/models/task/task-utils.ts:61-71 | Math.round(sum / n): the integer nearest to the average, with halves rounded up |
| TaskSpec.RoundDivBounds | src/lib/models/task/task-utils.ts:61-71 | a rounded average of values between lo and hi lies between lo and hi |
| TaskSpec.MulCancel | src/lib/models/task/task-utils.ts:61-71 | arithmetic proof helper for the rounded average of getDifficulty: multiplying by a positive count keeps strict order, both ways |
| TaskSpec.DifficultyBounds | src/lib/models/task/task-utils.ts:199-209 | every task's difficulty lies within the bounds of the planet difficulties (1 when there is nothing to average) |
| TaskSpec.SumBounds | src/lib/models/task/task-utils.ts:199-209 | the sum of n children's difficulties lies between n·lo and n·hi |
| TaskSpec.CensusShift | src/lib/models/task/task-utils.ts:320-349 | updateGalaxyStats on a sector or system shifts the counters by the census of its whole subtree |
| TaskSpec.CensusSumStep | src/lib/models/task/task-utils.ts:320-349 | one more child adds its subtree's census |
| TaskSpec.CountsUnion | src/lib/models/task/task-utils.ts:315-357 | the counts of two disjoint sets of tasks add up |
| TaskSpec.CountsOne | src/lib/models/task/task-utils.ts:315-357 | one task counts as one of its kind, and as one completed when checked |
| TaskSpec.CountsMoons | src/lib/models/task/task-utils.ts:315-357 | moons are not counted |
| TaskSpec.CensusCounts | src/lib/models/task/task-utils.ts:315-357 | the census updateGalaxyStats adds is the number of sectors, systems and planets of the subtree, and of their checked ones |
| TaskSpec.CensusSumCounts | src/lib/models/task/task-utils.ts:315-357 | the census of the first n children counts the tasks of their subtrees |
| TaskSpec.PostOrderCovers | src/lib/models/task/task.ts:482-500 | the order backupChecked visits tasks in covers the subtree once and ends with the task |
| TaskSpec.PostPrefixCovers | src/lib/models/task/task.ts:482-500 | the visit of the first n children covers their subtrees |
| TaskSpec.CheckedActions | src/lib/models/task/task.ts:482-500 | one CHECKED action per visited task, in order; its value is the old flag for the rollback list, or the new value when given |
| TaskSpec.CheckedActionsAppend | src/lib/models/task/task.ts:482-500 | the actions of two visits in a row are the actions of the joined visit |
| TaskSpec.CoordsActions | src/lib/models/task/task-utils.ts:359-371 | one COORDINATES action per system, holding its current position |
| TaskSpec.SystemsAll | src/lib/models/task/task-utils.ts:359-371 | the systems listed sector by sector are exactly the galaxy's systems, each once |
| TaskSpec.SystemsPrefixGrows | src/lib/models/task/task-utils.ts:359-371 | the systems of the first sectors come first |
| TaskSpec.SystemsPrefixAll | src/lib/models/task/task-utils.ts:359-371 | the systems of the first n sectors are distinct systems whose parents are those sectors |
| Ordering.Insert | src/lib/models/task/task.ts:194-196 | insertion for the stable sort: the result is the list plus the element |
| Ordering.SortByOrder | src/lib/models/task/task.ts:194-196 | sortChildren's result is a permutation of the children |
| Ordering.InsertSorted | src/lib/models/task/task.ts:194-196 | inserting into a sorted list keeps it sorted |
| Ordering.SortSorted | src/lib/models/task/task.ts:194-196 | sortChildren leaves the children sorted by non-decreasing order |
| Ordering.InsertStable | src/lib/models/task/task.ts:194-196 | an inserted task comes after every task of the same order |
| Ordering.SortStable | src/lib/models/task/task.ts:194-196 | children with equal order keep their relative position, as with the stable Array.prototype.sort |
| Ordering.SamePerm | src/lib/models/task/task.ts:194-196 | a permutation has the same elements, and has no repeats when the original has none |
| Ordering.DistinctCount | src/lib/models/task/task.ts:214-217 | a list without repeats holds each task at most once |
| Ordering.CountDistinct | src/lib/models/task/task.ts:214-217 | a list holding each task at most once has no repeats |
| Ordering.IndexOf | src/lib/models/task/task.ts:230 | findIndex: the first position of the task, or -1 exactly when it is absent |
| Ordering.SpliceOne | src/lib/models/task/task.ts:231 | splice(i, 1), where -1 removes the last element: one element shorter, and an empty list stays empty |
| Ordering.SpliceFound | src/lib/models/task/task.ts:229-232 | removing a listed child leaves every other child and only those, without repeats |
| Ordering.SpliceMissing | src/lib/models/task/task.ts:229-232 | removing a task that is not listed drops the last child (splice(-1, 1)) |
| Ordering.SpliceDistinct | src/lib/models/task/task.ts:229-232 | a splice keeps a list free of repeats and adds nothing |
| Tasks.Galaxy.SetChecked | src/lib/models/task/task-utils.ts:116-132 | the checked set becomes After(tree, t, v, p): the subtree when checking, and the subtree and ancestors when unchecking (see Checking.CheckAll / UncheckAll); the counters keep their distance from the true count |
| Tasks.Galaxy.SetChildrenChecked | src/lib/models/task/task-utils.ts:116-132 | the children loop of setChecked, task by task; the counters keep their distance |
| Tasks.Galaxy.SetClosed | src/lib/models/task/task.ts:51-58 | closing closes the whole subtree; reopening reopens the task alone |
| Tasks.Galaxy.PropagateRemoved | src/lib/models/task/task.ts:187-192 | the removed flag of every task of the subtree becomes v, and no other flag changes |
| Tasks.Galaxy.PropagateChild | src/lib/models/task/task.ts:189-191 | one more child's subtree gets the flag |
| Tasks.Galaxy.NumberFrom | src/lib/models/task/task.ts:199-207 | renumbers the children from a position on, leaving the other orders as they were |
| Tasks.Galaxy.SortChildren | src/lib/models/task/task.ts:194-196 | the child list becomes its stable sort by order: sorted, and a permutation |
| Tasks.Galaxy.AddChild | src/lib/models/task/task.ts:198-226 | reports failure and changes nothing exactly when sorting with a negative (integer) order (the TypeError of line 204); otherwise it sets the order (appended at the end, or shifting the later children up), the parent link, the child list (appended, then stably sorted), the checked flags (unchecking upward unless the item is checked), the removed flags of the item's subtree, and the counters (resynced, plus the item's census when the parent is not removed) |
| Tasks.Galaxy.Join | src/lib/models/task/task.ts:209-225 | addChild after its order step |
| Tasks.Galaxy.PlaceOrder | src/lib/models/task/task.ts:199-207 | the order step of addChild: a missing order becomes the child count; with sorting, an order inside the list shifts the later children up by one |
| Tasks.Galaxy.Attach | src/lib/models/task/task.ts:209-217 | parent link, setChecked and push-and-sort of addChild |
| Tasks.Galaxy.Link | src/lib/models/task/task.ts:209-212 | the parent link, then setChecked(false, false) on the parent unless the item is checked |
| Tasks.Galaxy.Settle | src/lib/models/task/task.ts:219-225 | the item's subtree inherits the parent's removed flag, and the counters grow by its census when the parent is not removed |
| Tasks.Galaxy.Append | src/lib/models/task/task.ts:214-217 | push then, with sorting, the stable sort; the result is sorted |
| Tasks.Galaxy.Push | src/lib/models/task/task.ts:214 | the item is appended to the child list and the tree stays well formed |
| Tasks.Galaxy.RemoveChild | src/lib/models/task/task.ts:229-245 | splices at findIndex (a missing item removes the last child), renumbers from 0 when sorting, takes the item's census off the counters unless it is already removed, and marks its subtree removed |
| Tasks.Galaxy.Unlist | src/lib/models/task/task.ts:229-239 | the splice and renumbering of removeChild |
| Tasks.Galaxy.Discount | src/lib/models/task/task.ts:240-244 | the counter update and removed flag of removeChild |
| Tasks.Galaxy.GetFlattenedChildren | src/lib/models/task/task.ts:261-268 | the subtree's tasks in depth-first order; see TaskTree.FlattenDistinct |
| Tasks.Galaxy.GetNbrChildren | src/lib/models/task/task.ts:270-277 | the number of descendants, or 0 for a closed task when counting open ones only |
| Tasks.Galaxy.GetNbrDirectChildrenChecked | src/lib/models/task/task.ts:279-285 | the number of checked children; see TaskSpec.CountInBound |
| Tasks.Galaxy.GetDifficulty | src/lib/models/task/task-utils.ts:61-71 | the rounded average difficulty of the subtree's planets; see TaskSpec.DifficultyBounds |
| Tasks.Galaxy.UpdateGalaxyStats | src/lib/models/task/task-utils.ts:315-357 | shifts the counters by the item's census, unless it is removed or the galaxy; see TaskSpec.CensusCounts |
| Tasks.Galaxy.AddSectorStats | src/lib/models/task/task-utils.ts:320-337 | the sector case: the sector and all its systems and planets |
| Tasks.Galaxy.AddSystemStats | src/lib/models/task/task-utils.ts:338-349 | the system case: the system and its planets |
| Tasks.Galaxy.BackupChecked | src/lib/models/task/task.ts:482-500 | a new step whose rollback restores every task of the subtree to its old flag, and whose rollforward sets the new value; see TaskSpec.PostOrderCovers |
| Tasks.Galaxy.BackupAllSystemsBeforeCoordsChange | src/lib/models/task/task-utils.ts:359-371 | one COORDINATES action per system of the galaxy, sector by sector (see TaskSpec.SystemsAll); `ok` is false, with no actions, exactly when some system has no position, where `coords!.clone()` throws |
| Tasks.TypeTextInjective | src/lib/models/task/task.ts:287-300 | getTypeText gives different names to different kinds |
| Records.SumStep | src/lib/models/task/galaxy.ts:127-132 | adding up one more child's counts |
| Records.MoonRec.constructor | src/lib/models/task/moon.ts:21-42 | a moon record copies the data and has no parent |
| Records.PlanetRec.constructor | src/lib/models/task/planet.ts:24-52 | a planet record copies the data, stores the parent and has no moons yet |
| Records.SystemRec.constructor | src/lib/models/task/system.ts:29-59 | a system record copies the data, has strength 0, the given coordinates and parent, and no planets yet |
| Records.SectorRec.constructor | src/lib/models/task/sector.ts:34-71 | a sector record: colour defaults to VIOLET, a fresh empty space (three empty point maps, no shapes), no systems yet |
| Records.LabelSetOf | src/lib/models/task/galaxy.ts:123 | the label set: the hide-checked label followed by one unticked label per stored label, in order |
| Records.GalaxyRec.constructor | src/lib/models/task/galaxy.ts:82-122 | a galaxy record: copied fields, saved locally with no server copy, empty history, all counters 0 |
| Records.MoonsCounted | src/lib/models/task/planet.ts:69-76 | records copied from data count as the data does |
| Records.PlanetsCounted | src/lib/models/task/system.ts:76-87 | the same for planets |
| Records.SystemsCounted | src/lib/models/task/sector.ts:88-99 | the same for systems |
| Records.SectorsCounted | src/lib/models/task/galaxy.ts:149-160 | the same for sectors |
| Records.AddChildToPlanet | src/lib/models/task/planet.ts:54-67 | the moon is appended and linked, and the galaxy above (if any) counts one more moon, completed when checked |
| Records.AddChildrenToPlanet | src/lib/models/task/planet.ts:69-76 | the moons are appended in order and the galaxy counts them all |
| Records.AddChildToSystem | src/lib/models/task/system.ts:61-74 | the planet is appended and linked, and the galaxy counts it |
| Records.AddChildrenToSystem | src/lib/models/task/system.ts:76-87 | the planets are appended in order and counted |
| Records.AddChildToSector | src/lib/models/task/sector.ts:73-86 | the system is appended and linked, and the galaxy counts it |
| Records.AddChildrenToSector | src/lib/models/task/sector.ts:88-99 | the systems are appended in order and counted |
| Records.AddChildToGalaxy | src/lib/models/task/galaxy.ts:137-147 | the sector is appended and linked, and counted |
| Records.AddChildrenToGalaxy | src/lib/models/task/galaxy.ts:149-160 | the sectors are appended in order and counted |
| Records.CopyComments | src/lib/models/task/galaxy.ts:124-126 | the comments are copied in order |
| Records.CreateMoon | src/lib/models/task/moon.ts:21-42 | a fresh moon with the data's fields; the parent argument is not stored |
| Records.CreatePlanet | src/lib/models/task/planet.ts:24-52 | a fresh planet with fresh moons built from the data; the galaxy above counts those moons |
| Records.CreateSystem | src/lib/models/task/system.ts:29-59 | a fresh system with fresh coordinates (or none) and strength 0, whose planets and moons are built from the data and counted by the galaxy above |
| Records.CreateSector | src/lib/models/task/sector.ts:34-71 | a fresh sector, VIOLET unless the data has a colour, with an empty space, whose systems, planets and moons are built and counted |
| Records.CreateGalaxy | src/lib/models/task/galaxy.ts:82-135 | a fresh galaxy with its label set, comments and sectors built from the data; each of the eight counters equals the total (and completed total) of that kind in the data |
| Records.InflateSectors | src/lib/models/task/galaxy.ts:127-132 | the sector loop of createGalaxy, counting every level |
| Records.AddLabels | src/lib/models/task/galaxy.ts:123 | the label loop of createGalaxy |
| Records.CreateNewGalaxy | src/lib/models/task/galaxy.ts:57-81 | a fresh galaxy with no sectors and all counters 0, VIOLET, not discoverable, with the assumed status NEED_TO_SAVE (see Left out) |
| Backups.BackupStep.constructor | src/lib/models/backup/backup.ts:49-52 | a step holds the given rollback and rollforward lists |
| Backups.BackupStep.AddRollback | src/lib/models/backup/backup.ts:54-56 | appends one rollback action |
| Backups.BackupStep.AddRollforward | src/lib/models/backup/backup.ts:58-60 | appends one rollforward action |
| Backups.BackupStep.AddAllRollback | src/lib/models/backup/backup.ts:62-66 | appends the actions in order |
| Backups.BackupStep.AddAllRollforward | src/lib/models/backup/backup.ts:68-72 | appends the actions in order |
| History.Pushed | src/lib/models/backup/backup-utils.ts:31-35 | a pushed step is on top of the undo stack, the redo stack is emptied, and the oldest step is dropped once there are 9 |
| History.Undone | src/lib/models/backup/backup-utils.ts:151-156 | rollback moves the top undo step onto the redo stack, or changes nothing when there is none |
| History.Redone | src/lib/models/backup/backup-utils.ts:144-149 | rollforward moves the top redo step back onto the undo stack |
| History.RedoUndo | src/lib/models/backup/backup-utils.ts:144-156 | undoing and then redoing gives back both stacks |
| History.UndoRedo | src/lib/models/backup/backup-utils.ts:144-156 | redoing and then undoing gives back both stacks |
| History.BoundedKept | src/lib/models/backup/backup-utils.ts:16 | the undo stack never holds more than MAX_BKP_LENGTH = 9 steps |
| History.WriteOwnField | src/lib/models/backup/backup-utils.ts:42-112 | an overwriting action changes its own field of its own task, and nothing else |
| History.TextOwnField | src/lib/models/backup/backup-utils.ts:42-63 | the same for the text fields |
| History.NumberOwnField | src/lib/models/backup/backup-utils.ts:42-63 | the same for the number fields |
| History.LookOwnField | src/lib/models/backup/backup-utils.ts:88-112 | the same for colour, coordinates and the encrypted flag |
| History.LastWriteWins | src/lib/models/backup/backup-utils.ts:42-112 | of two writes to the same field of the same task, the later wins |
| History.TextLastWins | src/lib/models/backup/backup-utils.ts:42-63 | the same for text fields |
| History.NumberLastWins | src/lib/models/backup/backup-utils.ts:42-63 | the same for number fields |
| History.LookLastWins | src/lib/models/backup/backup-utils.ts:88-112 | the same for look fields |
| History.StepWrites | src/lib/models/backup/backup-utils.ts:42-112 | an overwriting action changes the plain fields only |
| History.StepChecks | src/lib/models/backup/backup-utils.ts:107-109 | a CHECKED action moves the flags as setChecked(value, false) does |
| History.StepCloses | src/lib/models/backup/backup-utils.ts:107-109 | a CLOSED action closes the subtree, or reopens the task alone |
| History.StepSilent | src/lib/models/backup/backup-utils.ts:104-105 | LINKS and change-notification actions change no field |
| History.StepDates | src/lib/models/backup/backup-utils.ts:130-138 | a DATE action sets the modification date, and the unsaved mark exactly when that date differs from the galaxy's date |
| History.ReplayNext | src/lib/models/backup/backup-utils.ts:38-142 | playing one more action is one more step |
| History.ReplayConcat | src/lib/models/backup/backup-utils.ts:38-142 | playing two lists in a row is playing them joined |
| History.StepTwice | src/lib/models/backup/backup-utils.ts:38-142 | playing the same action twice is playing it once |
| History.SilentActions | src/lib/models/backup/backup-utils.ts:104-105 | a list of silent actions leaves every field as it was |
| History.EndsWithDate | src/lib/models/backup/backup-utils.ts:130-138 | a list ending with a DATE action leaves that date, and the unsaved mark that goes with it |
| History.PlayWrite | src/lib/models/backup/backup-utils.ts:42-112 | the playback of an overwriting action is its Step, with tree and counters unchanged |
| History.PlayChecked | src/lib/models/backup/backup-utils.ts:107-109 | the playback of a CHECKED action is its Step |
| History.PlayClosed | src/lib/models/backup/backup-utils.ts:107-109 | the playback of a CLOSED action is its Step |
| History.PlayDate | src/lib/models/backup/backup-utils.ts:130-138 | the playback of a DATE action is its Step |
| History.SetModified | src/lib/models/backup/backup-utils.ts:130-138 | sets the modification date and the unsaved mark |
| History.PlayAction | src/lib/models/backup/backup-utils.ts:38-142 | one action of the playback loop is one Step; the tree and the counters' distance are kept |
| History.PlayBackupActions | src/lib/models/backup/backup-utils.ts:38-142 | the fields after playback are Replay of the actions in list order, on an unchanged tree |
| History.Backup | src/lib/models/backup/backup-utils.ts:18-36 | marks the galaxy unsaved at `now`, appends the DATE actions that restore and re-set the date, and pushes the step (see History.Pushed) |
| History.Rollback | src/lib/models/backup/backup-utils.ts:151-156 | the stacks become Undone, and the fields become Replay of the top step's rollback list |
| History.Rollforward | src/lib/models/backup/backup-utils.ts:144-149 | the stacks become Redone, and the fields become Replay of the top redo step's rollforward list |
| Vec2DModel.Vec2D.constructor | src/lib/models/space/vec2d.ts:18-22 | a fresh pair of coordinates holding x and y |
| Vec2DModel.Vec2D.SetX | src/lib/models/space/vec2d.ts:24-29 | sets x and leaves y |
| Vec2DModel.Vec2D.SetY | src/lib/models/space/vec2d.ts:31-36 | sets y and leaves x |
| Vec2DModel.Vec2D.Clone | src/lib/models/space/vec2d.ts:38-40 | a fresh vector, not aliased to the original, with the same coordinates |
| MultiverseModel.Multiverse.constructor | src/lib/models/multiverse.ts:9-12 | a multiverse with its id and two empty slots |
| MultiverseModel.Multiverse.SetLocal | src/lib/models/multiverse.ts:14-19 | sets the local galaxy and leaves the server one |
| MultiverseModel.Multiverse.SetServer | src/lib/models/multiverse.ts:20-25 | sets the server galaxy and leaves the local one |
| ShapeModel.MinCornerIsLeast | src/lib/models/space/shape.ts:55-62 | computeMin's corner is the least x and the least y of the points, both taken from points |
| ShapeModel.MaxCornerIsGreatest | src/lib/models/space/shape.ts:64-71 | computeMax's corner is the greatest x and the greatest y of the points |
| ShapeModel.BoxContainsIrreflexive | src/lib/models/space/shape.ts:46-53 | no shape contains itself |
| ShapeModel.BoxContainsTransitive | src/lib/models/space/shape.ts:46-53 | containment is transitive |
| ShapeModel.BoxContainsAsymmetric | src/lib/models/space/shape.ts:46-53 | two shapes never contain each other |
| ShapeModel.Shape.constructor | src/lib/models/space/shape.ts:13-16 | a new shape: no holes, not contained, no cached corners |
| ShapeModel.Shape.ComputeMin | src/lib/models/space/shape.ts:55-62 | caches the least corner |
| ShapeModel.Shape.ComputeMax | src/lib/models/space/shape.ts:64-71 | caches the greatest corner |
| ShapeModel.Shape.GetMinX | src/lib/models/space/shape.ts:18-23 | the least x; the corner is computed once and then reused |
| ShapeModel.Shape.GetMinY | src/lib/models/space/shape.ts:25-30 | the least y, with the same caching |
| ShapeModel.Shape.GetMaxX | src/lib/models/space/shape.ts:32-37 | the greatest x, with the same caching |
| ShapeModel.Shape.GetMaxY | src/lib/models/space/shape.ts:39-44 | the greatest y, with the same caching |
| ShapeModel.Shape.Contains | src/lib/models/space/shape.ts:46-53 | true exactly when this shape's bounding box strictly contains the other's on all four sides |
| Fragments.Without | src/lib/models/space/shape-utils.ts:44 | deleting a key from the insertion order keeps the other keys in order |
| Fragments.EdgeMap.Get | src/lib/models/space/shape-utils.ts:73 | Map.get: the linked point, or undefined for a missing key |
| Fragments.EdgeMap.Set | src/lib/models/space/shape-utils.ts:95-104 | Map.set: links the key; a new key goes last in insertion order |
| Fragments.EdgeMap.Delete | src/lib/models/space/shape-utils.ts:76-79 | Map.delete: drops the key and its place in the order; a missing key changes nothing |
| Fragments.SizeIsKeyCount | src/lib/models/space/shape-utils.ts:65 | Map.size is the number of keys |
| Fragments.FragmentMap.constructor | src/lib/models/task/sector.ts:59-61 | a new empty point map |
| Fragments.FragmentMap.Size | src/lib/models/space/shape-utils.ts:65 | the number of keys |
| Fragments.FragmentMap.Set | src/lib/models/space/shape-utils.ts:95-104 | the map after Map.set |
| Fragments.FragmentMap.Delete | src/lib/models/space/shape-utils.ts:76-79 | the map after Map.delete |
| Fragments.FragmentMap.Clear | src/lib/models/space/shape-utils.ts:88-93 | the map is empty |
| Rings.AppendToLast | src/lib/models/space/shape-utils.ts:80 | a traced point goes to the end of the current ring |
| Rings.Open | src/lib/models/space/shape-utils.ts:66-72 | starting a ring at the first key in insertion order |
| Rings.Advance | src/lib/models/space/shape-utils.ts:73-82 | one link followed: the current key is deleted and the ring grows, or the ring is closed |
| Rings.Step | src/lib/models/space/shape-utils.ts:65-83 | one loop iteration removes at least one key and never loses a placed point |
| Rings.RingsNonEmpty | src/lib/models/space/shape-utils.ts:65-83 | every traced ring holds at least its starting point |
| Rings.EveryKeyInSomeRing | src/lib/models/space/shape-utils.ts:65-83 | every point that starts a fragment ends up in some ring |
| Rings.CycleGivesOneRing | src/lib/models/space/shape-utils.ts:65-83 | a map forming one closed cycle, in insertion order, gives that cycle as the only ring |
| Rings.ChainGivesOneRing | src/lib/models/space/shape-utils.ts:65-83 | an open chain of fragments gives that chain as the only ring |
| Rings.ChainRings | src/lib/models/space/shape-utils.ts:65-83 | the tracing loop empties the map and yields the rings of the map it started from |
| Rings.NewShapes | src/lib/models/space/shape-utils.ts:69-71 | one fresh, distinct shape of the given kind per ring |
| Rings.TraceRings | src/lib/models/space/shape-utils.ts:57-83 | the shapes of the rings of the map, which is left empty |
| Overlap.Insert | src/lib/models/space/shape-utils.ts:8 | insertion for the stable sort by minX |
| Overlap.SortFrom | src/lib/models/space/shape-utils.ts:8 | shapes.sort by getMinX: a stably sorted permutation of the positions |
| Overlap.ContainerEarlier | src/lib/models/space/shape-utils.ts:8-14 | after the sort, a containing shape comes before the shape it contains |
| Overlap.ContainedByTop | src/lib/models/space/shape-utils.ts:9-21 | a contained shape lies inside an earlier shape that is kept |
| Overlap.ContainedBeforeAll | src/lib/models/space/shape-utils.ts:9-21 | a shape is marked contained by the kept shapes exactly when some shape contains it |
| Overlap.HolesAreInside | src/lib/models/space/shape-utils.ts:13-18 | the holes of a kept shape are exactly the shapes it contains, in sorted order |
| Overlap.TopsAreTop | src/lib/models/space/shape-utils.ts:12-19 | the returned shapes are exactly those no shape contains, in sorted order |
| Overlap.MinKeys | src/lib/models/space/shape-utils.ts:8 | the sort keys are the shapes' least x, whose corners are now cached |
| Overlap.TestAndMark | src/lib/models/space/shape-utils.ts:14-17 | when the main shape contains the other, adds its points as a hole and marks it contained; nothing else changes |
| Overlap.MarkContained | src/lib/models/space/shape-utils.ts:13-18 | the inner loop: holes are exactly the contained shapes, and those are marked |
| Overlap.ResolveStep | src/lib/models/space/shape-utils.ts:10-20 | one shape of the outer loop is kept exactly when nothing contains it |
| Overlap.Resolve | src/lib/models/space/shape-utils.ts:9-21 | the kept list is exactly the uncontained shapes, each carrying its holes |
| Overlap.SortShapes | src/lib/models/space/shape-utils.ts:8 | the shapes stably sorted by least x |
| Overlap.CheckOverlap | src/lib/models/space/shape-utils.ts:6-23 | the list is stably sorted by least x; the result is the uncontained shapes in that order; a shape is marked contained exactly when some shape contains it; each kept shape's holes are the shapes it contains |
| Territory.TraceFresh | src/lib/models/space/shape-utils.ts:57-83 | fresh shapes holding the rings of the map, which is emptied |
| Territory.BuildShapes | src/lib/models/space/shape-utils.ts:57-86 | buildShapes: the rings of the map as shapes, reduced by checkOverlap (holes and containment as in Overlap.CheckOverlap) |
| Territory.SortedOrdered | src/lib/models/space/shape-utils.ts:84 | the sorted shapes keep their rings and kind |
| Territory.ResolvedKind | src/lib/models/space/shape-utils.ts:84-85 | the kept shapes are of the requested kind |
| Territory.SectorSpace.constructor | src/lib/models/task/sector.ts:55-61 | a sector's space: no shapes and three empty point maps |
| Territory.SectorSpace.Add | src/lib/models/space/shape-utils.ts:95-104 | the fragment goes to the ENNEMY, USER or border map by owner, and the other two are unchanged |
| Territory.SectorSpace.Reset | src/lib/models/space/shape-utils.ts:88-93 | the three maps are cleared |
| Territory.SectorSpace.ComputeShapes | src/lib/models/space/shape-utils.ts:106-111 | the three shape lists are built from the three maps, which end empty |
| Cases.Table | src/lib/models/space/space-handler.ts:242-407 | the fragments of each of the 16 marching-squares states; at most two |
| Cases.TableWellFormed | src/lib/models/space/space-handler.ts:242-407 | every fragment joins two different edges |
| Cases.EmptyStates | src/lib/models/space/space-handler.ts:242-245 | states 0 and 15 emit nothing |
| Cases.Saddles | src/lib/models/space/space-handler.ts:286-304 | saddle states 5 and 10 emit the fragments of their two single corners |
| Cases.Complement | src/lib/models/space/space-handler.ts:242-407 | every state other than 0, 15 and the saddles 5 and 10 emits one fragment, and its complement emits that fragment reversed |
| Cases.TouchesCrossedEdges | src/lib/models/space/space-handler.ts:242-407 | the edges a state's fragments touch are exactly those with one active end |
| Common.FindBy | src/lib/models/space/space-handler.ts:232-233 | the position of an entry whose key is the one sought, or -1 exactly when no entry has that key; the `has`/`get` lookup on a keyed list standing for a JavaScript `Map` |
| Encoding.Find | src/lib/models/space/space-handler.ts:231-232 | the entry of a sector in the states map, or -1 when absent |
| Encoding.AddCorner | src/lib/models/space/space-handler.ts:225-240 | computeControlNodeState keeps three slots per entry |
| Encoding.FindUnique | src/lib/models/space/space-handler.ts:231-236 | with one entry per sector, lookup finds that entry |
| Encoding.AddCornerSectors | src/lib/models/space/space-handler.ts:231-236 | a new sector gets an entry at the end; a known one keeps its place |
| Encoding.AddCornerState | src/lib/models/space/space-handler.ts:237-238 | the value is added to the owner's slot and to the TERRITORY slot of that sector alone |
| Encoding.StepEffect | src/lib/models/space/space-handler.ts:196-208 | an active corner adds its value to its sector; an inactive one changes nothing |
| Encoding.PackBits | src/lib/models/space/space-handler.ts:196-208 | four corners pack into a number below 16, with one bit per corner |
| Encoding.StatesUpToSectors | src/lib/models/space/space-handler.ts:196-208 | the states map has one entry per sector with an active corner |
| Encoding.StatesUpToState | src/lib/models/space/space-handler.ts:196-208 | a sector's three slots are the packed corners of ENNEMY, USER and either |
| Encoding.PackUpToFour | src/lib/models/space/space-handler.ts:196-208 | four corners read give the packed number |
| Encoding.StatesArePacked | src/lib/models/space/space-handler.ts:196-208 | the state of a square, for a sector, is the packed corners per owner |
| Encoding.CornerEncoding | src/lib/models/space/space-handler.ts:196-208 | the TERRITORY slot is the sum of the other two; a bit is set exactly when that corner is active for the sector and owner; no corner counts for both owners |
| Contour.Slots.Put | src/lib/models/space/space-handler.ts:246-255 | caching a point on one edge slot leaves the others |
| Contour.FillAllEffect | src/lib/models/space/space-handler.ts:246-255 | filling only empties slots: cached points are reused, new ones get fresh ids and sit on the edge's lerp point |
| Contour.FillAllAppend | src/lib/models/space/space-handler.ts:246-255 | two runs of fills are one |
| Contour.TableFilled | src/lib/models/space/space-handler.ts:242-407 | each case caches both ends of each of its fragments |
| Contour.PairsOfFilled | src/lib/models/space/space-handler.ts:242-407 | each fragment becomes the link between its cached ends |
| Contour.PairsStable | src/lib/models/space/space-handler.ts:242-407 | later fills do not change the links of fragments already cached |
| Contour.ApplyPairs | src/lib/models/space/space-handler.ts:253-254 | TerritoryUtils.add of each link in turn keeps a well-formed map |
| Contour.ApplyAppend | src/lib/models/space/space-handler.ts:253-254 | adding two lists of links is adding them joined |
| Contour.ApplyPairsLinks | src/lib/models/space/space-handler.ts:253-254 | after adding links, a key is linked to the last link that starts there; other keys keep their link |
| Contour.StatesPairsOfState | src/lib/models/space/space-handler.ts:210-220 | what a states map adds to a sector's map is the table case of that sector's state |
| Contour.SquarePairsPacked | src/lib/models/space/space-handler.ts:196-220 | a square adds to each sector map the table case of its packed corners |
| Contour.PackedPairsStable | src/lib/models/space/space-handler.ts:191-223 | caching on later squares does not change the links of earlier squares |
| Contour.StillTraced | src/lib/models/space/space-handler.ts:191-223 | a traced square stays traced |
| Contour.Extend | src/lib/models/space/space-handler.ts:191-223 | one more square adds its table case's links to each map |
| Control.FindTally | src/lib/models/space/space-handler.ts:130-146 | the entry of a sector in the strength list, or -1 |
| Control.TallyKeys | src/lib/models/space/space-handler.ts:130-146 | the strength list has one entry per sector with a system of positive influence, and no others |
| Control.TallyIsSectorSums | src/lib/models/space/space-handler.ts:130-146 | each entry holds its sector's total influence and the user's share of it |
| Control.SumsVanish | src/lib/models/space/space-handler.ts:130-146 | a sector with no influencing system has zero sums |
| Control.TallyAt | src/lib/models/space/space-handler.ts:126-146 | the loop over systems builds that list |
| Control.Descending | src/lib/models/space/space-handler.ts:157 | the sort key orders totals from strongest down |
| Control.ClassifyRanks | src/lib/models/space/space-handler.ts:157-178 | the node gets the strongest sector (first among equals) and its strength, the second strongest if any, and USER exactly when the user share exceeds the rest |
| Control.StrengthOrdered | src/lib/models/space/space-handler.ts:157-170 | strongest ≥ second ≥ 0, and strength > 0 exactly when a sector reaches the node |
| Control.UniformUser | src/lib/models/space/space-handler.ts:130-146 | when all of a sector's systems have control c, its user share is c times its total |
| Control.HalfRule | src/lib/models/space/space-handler.ts:171-178 | the owner rule with a share of c means USER exactly when c > 1/2 |
| Control.UniformOwner | src/lib/models/space/space-handler.ts:171-178 | when all the dominant sector's systems have control c, the node is USER exactly when some sector reaches it and c > 1/2 |
| Control.UniformEntry | src/lib/models/space/space-handler.ts:130-146 | an entry's user share is c times its positive total |
| Control.ClassifyTallied | src/lib/models/space/space-handler.ts:120-186 | a classified node is ENNEMY or USER, is owned exactly when its strength is positive, and names a sector with a system |
| SpaceGrid.ControlNode.constructor | src/lib/models/space/space-handler.ts:6-21 | a node at its place with strength 0 and nothing else set |
| SpaceGrid.ColumnGrows | src/lib/models/space/space-handler.ts:79-111 | a column grows by a square sharing the two nodes of the square above |
| SpaceGrid.FirstColumnGrid | src/lib/models/space/space-handler.ts:79-93 | the first column alone is a grid |
| SpaceGrid.NextColumnGrid | src/lib/models/space/space-handler.ts:96-111 | a grid grows by a column that reuses the right nodes of the last one |
| SpaceGrid.SharedEdges | src/lib/models/space/space-handler.ts:78-112 | neighbouring squares cache the point of their common edge on the same node |
| SpaceGrid.DiagonalShare | src/lib/models/space/space-handler.ts:78-112 | a square's top-left node is the bottom-right node of its upper-left neighbour |
| SpaceGrid.NodeAtPlace | src/lib/models/space/space-handler.ts:78-112 | every grid node sits at its place and is the top-left corner of its square |
| SpaceGrid.CornersDistinct | src/lib/models/space/space-handler.ts:78-112 | a square's four corners are four different nodes |
| Space.Ceil | src/lib/models/space/space-handler.ts:54-76 | Math.ceil: the least integer not below the number |
| Space.SpotsOnEdges | src/lib/models/space/space-handler.ts:409-455 | each edge's lerp point keeps the edge's fixed coordinate |
| Space.ActiveIsOwned | src/lib/models/space/space-handler.ts:199-205 | an active corner has an owner and a sector |
| Space.Emit | src/lib/models/space/space-handler.ts:246-255 | one fragment: both ends cached, and the link added to the owner's map of the sector only |
| Space.EmitAll | src/lib/models/space/space-handler.ts:286-304 | up to two fragments in turn |
| Space.InterpretState | src/lib/models/space/space-handler.ts:242-407 | the table case of the state is cached and added to the owner's map, and the other maps are unchanged |
| Space.InterpretEntry | src/lib/models/space/space-handler.ts:210-220 | the three states of one entry: ENNEMY, USER and the border map |
| Space.InterpretStates | src/lib/models/space/space-handler.ts:210-220 | every sector map receives the links of its own entry, in order |
| Space.TargetStep | src/lib/models/space/space-handler.ts:210-220 | the expected maps after one more entry |
| Space.NewPair | src/lib/models/space/space-handler.ts:79-93 | two fresh blank nodes at adjacent places |
| Space.FirstColumn | src/lib/models/space/space-handler.ts:79-93 | the first column of squares, built from fresh blank nodes |
| Space.NextColumn | src/lib/models/space/space-handler.ts:96-111 | the next column, reusing the right nodes of the last one |
| Space.InitSquares | src/lib/models/space/space-handler.ts:78-112 | a well-formed grid of fresh blank nodes |
| Space.SpaceHandler.constructor | src/lib/models/space/space-handler.ts:54-76 | the grid dimensions are the ceiling of width and height over the square size, the half size is floored, and the grid is fresh |
| Space.SpaceHandler.ClassifyNode | src/lib/models/space/space-handler.ts:126-186 | the node gets its control classification and its edge caches are cleared |
| Space.SpaceHandler.ControlColumn | src/lib/models/space/space-handler.ts:122-187 | the interior nodes of one column are classified; the others are unchanged |
| Space.SpaceHandler.ComputeSquaresControl | src/lib/models/space/space-handler.ts:114-189 | every interior node (columns and rows 2 to n-2) is classified with its caches cleared; border nodes are unchanged |
| Space.SpaceHandler.CornerStates | src/lib/models/space/space-handler.ts:196-208 | the states map of a square, one entry per sector |
| Space.SpaceHandler.StoreSlots | src/lib/models/space/space-handler.ts:246-255 | writes the square's edge caches back to its nodes |
| Space.SpaceHandler.ComputeSquare | src/lib/models/space/space-handler.ts:196-220 | one square: each sector map receives the table case of its packed corners |
| Space.SpaceHandler.TraceSquare | src/lib/models/space/space-handler.ts:196-220 | the same, with the caches stored on the nodes |
| Space.SpaceHandler.TraceNext | src/lib/models/space/space-handler.ts:194-221 | one more square of the sweep |
| Space.SpaceHandler.TraceColumn | src/lib/models/space/space-handler.ts:194-221 | one column of the sweep |
| Space.SpaceHandler.TraceColumns | src/lib/models/space/space-handler.ts:194-221 | the whole sweep |
| Space.SpaceHandler.ComputeTerritories | src/lib/models/space/space-handler.ts:191-223 | interior nodes are classified, every square is traced, and each sector map receives, in sweep order, the table case of each square's packed corners |
| Space.SpaceHandler.TraceTerritories | src/lib/models/space/space-handler.ts:194-221 | the sweep over all squares |

## Left out

- Vec2DModel.Vec2D: coordinates are held as `real`s, so the float32 rounding of a `Float32Array` (vec2d.ts:17) is not modelled.
- Space.SpaceHandler: the influence of a system on a node and the lerp offset are abstract functions. computeSquaresControl first writes a per-system strength, `getDifficulty() / 15 + 0.75`, into each system record's `strength` field (space-handler.ts:115-119); the model leaves that write out, so a system record keeps the strength 0 it is created with, and the influence function stands for whatever the strength feeds into. What the model fixes is which sector wins, the owner rule, which edge gets a point, and that the point keeps the edge's fixed coordinate.
- Space.SpaceHandler.ComputeSquaresControl: as in the source (space-handler.ts:185-186), the `above`/`right` caches are cleared only on interior nodes. A node on the border keeps the point an earlier pass cached there, and interpretState fills only empty caches. So a second computeTerritories on the same handler reuses those points. The model states exactly this: border nodes are unchanged.
- ShapeModel.Shape: `points` is set when the shape is made, not pushed onto the array point by point. The tracing loop builds the rings first (Rings.ChainRings) and then makes one shape per ring (Rings.NewShapes).
- ShapeModel.Shape.ComputeMin: requires a non-empty point list. On an empty shape the source reads `points[0]` and throws. Traced shapes are never empty (Rings.RingsNonEmpty).
- Territory.SectorSpace.ComputeShapes: states that each list is built from its map (`Built`). The hole and containment facts are stated one level down, by Territory.BuildShapes and Overlap.CheckOverlap, and are not repeated across the three calls.
- Territory.BuildShapes: the border shapes' `computeTitlePositionSize` and the polylabel search behind it (shape.ts:83-219) are not modelled; that is floating-point geometry.
- Tasks.Galaxy: the `control` getter (task.ts:62-79) is not modelled. It feeds the rendering and the influence weights, which are abstract here.
- Backups.BackupStep: holds value lists. The source's constructor keeps the arrays it is given, so a caller that changes those arrays later also changes the step. This aliasing is not modelled.
- History.PlayAction: TYPE actions (backup-utils.ts:65-87) are not replayed. Neither are LABELS (97-100) or ADD_CHILD / REMOVE_CHILD (114-119). The model plays only the actions that overwrite fields, CHECKED, CLOSED, LINKS, change notifications and DATE, so Rollback and Rollforward say nothing about undoing a structural edit, a type change or a label change. They require only the step they pop to be playable; older steps on either stack may hold any action.
- History.PlayBackupActions: requires every action of the list to name a task of the galaxy and to be playable in the sense of History.PlayAction; a list holding TYPE, LABELS, ADD_CHILD or REMOVE_CHILD actions is outside the model, where backup-utils.ts:38-142 plays it.
- Tasks.Galaxy.AddChild: `order` (like `priority`) is a JS number in the source and an integer in the model. With `sort` set, a fractional order below the child count makes task.ts:203-205 read `this.children[i]` at a non-integer index, get `undefined` and throw the same TypeError as a negative order (order 0.5 with two children, say). That throw is not modelled.
- Tasks.Galaxy.GetDifficulty: a planet's `data.difficulty` is a JS number in the source and an integer in the model. So the model covers only whole planet difficulties: the rounded mean `Math.round(sum / n)` (task-utils.ts:61-71) of fractional values is not modelled, and TaskSpec.RoundDiv is Math.round for integer sums only.
- Tasks.Galaxy.AddChild: the tree invariant gives every non-root task a parent link one level up. A task made with no parent (createPlanet without a parent, say) and then added with addChild is represented with the link it is about to get. The model does not represent a galaxy holding parentless tasks.
- Tasks.Galaxy: `morphToDreadType` (task.ts:302-444), `partialExport` (446-478), `addLabel` / `removeLabel` (247-259), the draggable/displayed getters, `getColor` and the `changes$` notifications (with the `notify` flag) are not modelled; they serve the editor and the renderer.
- Tasks.Galaxy: the constructor that wires the injected methods (task.ts:128-181) is not a member. Its effect is the tree invariant `Valid`, and its children loop is Tasks.Galaxy.AddChild.
- Records.CreateNewGalaxy: the id (`uuid()`) and the creation date (`moment()`) are parameters; the colour is fixed to VIOLET and no pattern or emblem is set, as galaxy.ts:57-81 does.
- Records.CreateNewGalaxy: galaxy.ts:79 assigns `SaveStatus.NEED_TO_SAVE`, but the `SaveStatus` enum (task-enums.ts:64-69) declares only NO_COPY, AHEAD, SAME and BEHIND. A type-checked build rejects that line, and a build that only strips types stores `undefined`. The model assumes a fifth status value `NEED_TO_SAVE`, distinct from the four, and proves that a new galaxy gets it.
- Control.UniformOwner: the influence is a real-valued function, so the model cannot express a system lying exactly on a grid node. There the source's influence `Math.pow(strength * radius, 2) / (dx * dx + dy * dy)` (space-handler.ts:135) is +Infinity. The user share is then Infinity, or NaN when the control is 0, so `total - user < user` (space-handler.ts:172-177) is false and the node is ENNEMY whatever the control. The lemma holds only for systems off the grid nodes; it is not claimed for one on a node.
- Space.SpaceHandler.ComputeTerritories: only placed systems with a sector are modelled. `SystemInfo` makes the sector and the coordinates mandatory, while a system's coords are optional in the source (system.ts:42). computeSquaresControl dereferences `system.parent!` and `data.coords!` (space-handler.ts:131-134), so a system without either makes computeTerritories throw a TypeError as soon as the interior is non-empty. That error path is not modelled. The same holds for Space.SpaceHandler.ComputeSquaresControl.
- Space.SpaceHandler.ComputeTerritories: requires `influenceThreshold > 0.0`. With a threshold of 0 or less, a border node of strength 0 is active and has no territory, and the source throws at `node.territory!.id` (space-handler.ts:231). That throw is not modelled. The one caller (galaxy-handler.ts:35) uses the default threshold 1.0.
- Space.SpaceHandler.ComputeTerritories: the galaxy-level driver that builds the handler and then calls computeShapes on every sector (galaxy-handler.ts) is not part of this model.
