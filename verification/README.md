# Verification of the task board, its sessions and its small stores

A Dafny model of the parts of the task manager that carry its rules, with
proofs about every run of them. `dafny verify dfyconfig.toml` checks it all.

* **Board and XP ledger.** `Board` says, as functions of one account's rows,
  what every board and link request does: create, update, complete with its
  cascade, reopen, delete, move, promote, link. `Database` and `BoardService`
  are the repositories and use cases as objects whose methods run statement by
  statement and commit what `Board` says or roll back. `BoardInvariants`,
  `BoardRequests`, `BoardRemovals`, `BoardMoves` and `BoardLinks` prove what
  each request does and keeps; `BoardRuns` proves it of all sequences of requests.
  `BoardAnswers`, `BoardEffects` and `BoardBooks` say the same once more in the
  rows' own fields, without the functions the requests are made of: what is
  accepted and refused, what is written, what is paid and counted.
  `BoardCounters` follows the two completion counters one by one over whole runs.
* **Gap positions.** `Position` is `Place` in wrapping int32; `Gaps` bounds how
  often it renumbers; `Scopes`, `BoardOrder`, `BoardLists` and `BoardOrderRuns`
  prove that sorting by position is plain list insertion, request by request
  and over whole runs, and exactly when; `BoardOrderLimits` is a run where it is not.
* **Sessions.** `RefreshStore` is the Redis store as small steps of any number
  of callers, `Sessions` the use cases above it, `Renewal` the browser's
  cross-tab renewal running against the same store: what it never does.
  `RenewalProgress`: when it renews, and that everybody waiting can get through.
* **Small stores.** `VersionedCache`, `RateLimit` and `Streak` are compared with
  simple specifications at every interleaving or over every sequence.
* **Algorithms.** `TagRows` (greedy line breaking), `Progression` (levels),
  `Base64` and `PasswordHash` (printed hashes), `Pagination` (keyset pages).

Where the code and its own text part ways the model follows the code:

* `back/README.md:244-247` calls a stale cache read structurally impossible.
  `Set` reads the version when it stores, so a value loaded before an
  invalidation can be filed after it. `VersionedCache.StaleReadIsPossible` is a
  run that does it; `VersionedCache.StaleExactlyWhen` says when it happens.
* Creating a subtask throws away the placements `Place` returns
  (`back/internal/app/board/write.go:105`), so the promise that it joins the end
  of its siblings, alone at its place, has conditions. With the last of n
  siblings at position p, it comes last exactly when p + 2048 <= 2^30, or
  p < 1024 (n + 1), or the two are equal and the new id is the larger
  (`EndsUpLast`); it stands alone exactly when one of the first two holds or no
  sibling stands at 1024 (n + 1) (`EndIsFree`). `BoardOrderLimits.OrderBreaksInARun`
  is a run of a new account that breaks both.
* A comment in `back/internal/app/auth/service.go:246-250` says that a session
  that was signed out must not come back. That holds of a token signed out while
  live; one already rotated keeps its grace. `RefreshStore.DroppedComesBackExactlyWhen`
  says exactly when, `RefreshStore.DroppedAfterRotationComesBack` is a run.

* The profile counts completed tasks and completed subtasks apart, but promoting
  a finished subtask moves neither counter. `BoardCounters.CountersByKind` says by
  how much each is off in every run, and when neither is;
  `BoardCounters.PromotedThenReopened` takes from the tasks what the subtasks were given.

Conventions: ids are numbers in the order the database sorts them, 0 being the
nil id; instants and the user's day are integers; the XP configuration is the
default one; the plan and the achievement catalogue do not change during a run.
In a state machine a step that is not possible is no step. Tokens, CSRF values
and the ids of new rows are assumed new: a creation under an id already taken is
refused.

## Model

| member | source | states |
|---|---|---|
| `Position.Place` | back/internal/domain/task/position.go:35-73 | The loops and branches of Place, in wrapping int32, decide what `Placing` decides: the neighbour missing or two neighbours named is the error, otherwise the midpoint or a renumbered scope. |
| `Position.Rebalance` | back/internal/domain/task/position.go:78-92 | Every sibling and the free place get the gap-spaced position of their rank, one free place at `index`. |
| `Position.IndexOf` | back/internal/domain/task/position.go:94-101 | The first index holding the id, or -1. |
| `Position.Without` | back/internal/app/board/move.go:336-344 | The in-place filter leaves, in the front of the same array, the others in their order. |
| `Position.PlacingAnswers` | back/internal/domain/task/position.go:35-58 | Place fails exactly for two neighbours or for one that is not listed; otherwise the index is right before, right after, or the end. |
| `Position.NoOperationWraps` | back/internal/domain/task/position.go:59-91 | In a scope of positions 1..2^30 and size + 1 at most 2^20, every int32 sum, difference, midpoint and renumbered position is the exact integer. |
| `Position.MidpointBetween` | back/internal/domain/task/position.go:59-76 | Without renumbering the new position is strictly between its neighbours and inside 1..2^30. |
| `Position.PlaceRefinesInsertion` | back/internal/domain/task/position.go:35-92 | Whether or not it renumbered, sorting by position gives the plain list insertion, in range, with no tie that was not there before. |
| `Position.AppendWithoutPlacements` | back/internal/app/board/write.go:100-111 | A creation that throws the placements away still gets a position in range; it is past every sibling if and only if there was room at the end or the renumbered place lies past the last one. |
| `Position.FreeEndExactly` | back/internal/app/board/write.go:105 | Nobody stands where the append lands if and only if there is room at the end or no sibling stands at 1024 (n + 1). |
| `Position.AppendMayTie` | back/internal/domain/task/position.go:59-91 | Siblings at 3072 and 2^30 tie with the append; at 1024 and 2^30 there is no room at the end either, and no tie. |
| `Gaps.PlacementsWithoutRenumbering` | back/internal/domain/task/position.go:59-76 | With every gap at least 2^k and room under the ceiling, any k placements mixed with any removals need no renumbering. |
| `Gaps.TenPlacementsAfterRenumbering` | back/internal/domain/task/task.go:17-20 | After a renumbering, ten further placements anywhere never renumber. |
| `Gaps.FrontGapIsUsedUp` | back/internal/domain/task/position.go:59-76 | The bound is tight: placements at the front halve one gap until the eleventh has to renumber. |
| `Progression.RewardIsNearestShare` | back/internal/domain/progression/xp.go:35-45 | Every completion pays more than nothing, a subtask less than a task, and by the whole number nearest to its share. |
| `Progression.LevelBracketsXP` | back/internal/domain/progression/xp.go:47-64 | XPForLevel(L) <= xp < XPForLevel(L+1) for L the level of xp. |
| `Progression.LevelInFigures` | back/internal/domain/progression/xp.go:17-64 | The curve in figures: 45 (L - 1)^2 <= xp < 45 L^2 for L the level of xp. |
| `Progression.GaloisPair` | back/internal/domain/progression/xp.go:47-64 | A threshold is reached if and only if its level is at most the level of the XP. |
| `Progression.LevelOfThreshold` | back/internal/domain/progression/xp.go:47-64 | LevelForXP(XPForLevel(l)) = l for l >= 1. |
| `Progression.LevelMonotone` | back/internal/domain/progression/xp.go:55-64 | More XP never lowers the level. |
| `Progression.ProgressFillsTheLevel` | back/internal/domain/progression/xp.go:73-79 | Into + Remaining = Span, 0 <= Into < Span, and the clamp on Span never bites. |
| `Ledger.NumberedNeverCollides` | back/internal/adapter/postgres/xp_repo.go:20-55 | In a ledger numbered by GrantCount + 1 no two grants share task, source and number. |
| `Ledger.NextGrantIsFree` | back/internal/app/board/progress.go:226-246 | The number after the count is never refused by the unique index. |
| `Ledger.NumberedAppend` | back/internal/adapter/postgres/xp_repo.go:28-72 | Recording the next grant, or any revocation, keeps grants numbered. |
| `Ledger.NumberedHasNoGaps` | back/internal/adapter/postgres/xp_repo.go:56-72 | Every number from 1 to the count was handed out. |
| `Ledger.TotalByTask` | back/internal/domain/progression/ledger.go:33-96 | The whole ledger adds up to the sum, task by task, of what each task's entries add up to. |
| `Tasks.Item.Complete` | back/internal/domain/task/task.go:117-131 | Completing writes the whole snapshot once and refuses a second time without a change. |
| `Tasks.Item.Reopen` | back/internal/domain/task/task.go:132-145 | Reopening clears the whole snapshot, and refuses an open task without a change. |
| `Tasks.Item.Promote` | back/internal/domain/task/task.go:146-162 | Promotion moves a subtask to a quadrant and position, touching nothing else, and refuses a task. |
| `Tasks.ReopenUndoesComplete` | back/internal/domain/task/task.go:117-145 | Complete then Reopen gives the row back; both keep the snapshot whole. |
| `Scopes.ReadScope` | back/internal/adapter/postgres/task_write.go:173-211 | Handing rows out least first gives the one ordered listing of the live rows of a scope. |
| `Scopes.OrderedUnique` | back/internal/adapter/postgres/task_write.go:286-341 | ORDER BY position, id has only one answer. |
| `BoardInvariants.AwardKeeps` | back/internal/app/board/progress.go:203-263 | Paying for a live open task always succeeds and keeps rows, ledger, delta and counters in agreement. |
| `BoardInvariants.CascadeCompletesTheOpen` | back/internal/app/board/progress.go:69-84 | The cascade succeeds and completes exactly the subtasks still open. |
| `BoardInvariants.UnlocksAreFresh` | back/internal/app/achievement/service.go:91-130 | Walking the catalogue unlocks, once each, exactly what is earned and not yet held. |
| `BoardInvariants.EvaluateHoldsTheEarned` | back/internal/app/achievement/service.go:83-138 | After Evaluate everything earned is held and the counter moved by exactly what is new. |
| `BoardRequests.QuadrantResolves` | back/internal/app/board/progress.go:178-200 | In an account in order the effective quadrant of every live task exists. |
| `BoardRequests.CompleteOutcome` | back/internal/app/board/progress.go:39-107 | Complete is refused only for a missing or finished task; otherwise the task and, under a parent, exactly its open subtasks are completed, nothing else changes, and the invariant holds. |
| `BoardRequests.ReopenOutcome` | back/internal/app/board/progress.go:114-171 | Reopen is refused only for a missing or open task; it takes back exactly what was paid and touches no other row. |
| `BoardRemovals.DeleteOutcome` | back/internal/app/board/move.go:251-334 | Delete is refused only for a missing task or an open subtask; otherwise exactly the family is marked, exactly the links touching it go, and the invariant holds. |
| `BoardRemovals.WithdrawKeepsBooks` | back/internal/app/board/move.go:307-334 | Withdrawing a doomed row moves ledger, delta and counter together. |
| `BoardMoves.MoveOutcome` | back/internal/app/board/move.go:34-137 | MoveTask fails exactly for a missing or finished task, a wrong destination or an unknown neighbour; otherwise only places change. |
| `BoardMoves.PlaceRowOutcome` | back/internal/app/board/move.go:93-226 | Placing a row can fail only on the neighbour it names; no database check refuses it. |
| `BoardMoves.PromoteOutcome` | back/internal/app/board/move.go:144-177 | Promotion of a live subtask, finished or not, always succeeds unless the quadrant is unknown, and appends it to its quadrant. |
| `BoardMoves.CreateOutcome` | back/internal/app/board/write.go:43-145 | A draft becomes a task if and only if there is room in the plan, its parent or quadrant is good and its fields are; then only the new row, renumbered positions and the counter change. Otherwise it answers the one code that applies: a full plan, a missing parent, a parent that is a subtask, or anything else. |
| `BoardMoves.UpdateOutcome` | back/internal/app/board/write.go:148-179 | Update changes the deadline fields of one open task and nothing else. |
| `BoardMoves.EditedDeadline` | back/internal/app/board/write.go:227-262 | A patch clears, replaces or keeps the deadline; a time of day is never left without one. |
| `BoardLinks.SameEndsIsEquivalence` | back/internal/domain/link/link.go:73-82 | SameEnds is reflexive, symmetric and transitive. |
| `BoardLinks.ReversedPair` | back/internal/domain/link/link.go:30-33 | A reversed pair says the same exactly when the type is undirected. |
| `BoardLinks.CreateLinkOutcome` | back/internal/app/graph/links.go:58-120 | Exactly when each of the five refusals is answered, a bad type among the causes; otherwise exactly one link was added and the invariant holds. |
| `BoardLinks.RetypeLinkOutcome` | back/internal/app/graph/links.go:123-150 | Retype fails exactly for a missing link, a type that is none or a duplicate; otherwise the ends stay and the invariant holds. |
| `BoardLinks.DeleteLinkOutcome` | back/internal/app/graph/links.go:153-155 | Removing a link removes that one only. |
| `BoardRuns.EveryRunKeepsInv` | back/internal/app/board/progress.go:33-38 | The invariant holds after every sequence of board and link requests, accepted or refused. |
| `BoardRuns.LedgerConservation` | back/internal/app/board/progress.go:39-171 | In every reachable state lifetime XP = sum of the ledger = sum of XPAwarded over live completed tasks >= 0; each task's entries add up to its award if it is live and completed, and to 0 otherwise. |
| `BoardRuns.AggregateIsExact` | back/internal/app/board/progress.go:266-300 | TasksCompleted + SubtasksCompleted = live completed tasks, the stored level is the level of the XP, AchievementsUnlocked = achievements held. |
| `BoardRuns.GrantsAreNumbered` | back/internal/adapter/postgres/xp_repo.go:28-72 | No two completion entries of one task and source carry one number, and they are numbered 1..k without a gap. |
| `BoardRuns.ForestOfDepthOne` | back/internal/domain/task/task.go:80-185 | Every live subtask has a live top-level parent, a quadrant goes with no parent and only then, all four completion fields are set on a completed task and none on an open one, and the effective quadrant resolves. |
| `BoardRuns.NoCorruptionIsReported` | back/internal/app/board/progress.go:178-200 | ORPHANED_NODE and the grant-number conflict answer no request in any reachable state. |
| `BoardRuns.SnapshotIsFrozen` | back/internal/app/board/move.go:40-47 | One request keeps the snapshot of a completed task, unless it reopens that very task. |
| `BoardRuns.SnapshotLasts` | back/internal/app/board/move.go:40-47 | Between two states of a run with no reopening of that task in between, a completed task has the same snapshot. |
| `BoardRuns.LinksStayHonest` | back/internal/app/graph/links.go:58-183 | In every run links join two distinct live tasks that are not parent and child; no two of one type join the same ends, nor, for RELATED and CONNECTED_TO, the same ends reversed; a free account has at most five. |
| `BoardAnswers.QuadrantListing` | back/internal/adapter/postgres/task_write.go:173-211 | A quadrant lists exactly its live top-level tasks, each once, by position and then id. |
| `BoardAnswers.SubtaskListing` | back/internal/adapter/postgres/task_write.go:286-341 | A parent lists exactly its live subtasks in the same order. |
| `BoardAnswers.CreateAnswers` | back/internal/app/board/write.go:43-145 | Which code answers which draft, in the order of the checks: five open rows on a free account, a missing parent, a parent that is a subtask, no quadrant, bad texts or a used id; otherwise it is accepted. |
| `BoardAnswers.CreateCounts` | back/internal/app/board/write.go:63-76 | An accepted creation counts one task created and touches no ledger entry, achievement or link. |
| `BoardAnswers.CompleteAnswers` | back/internal/app/board/progress.go:44-52 | A task is completed if and only if it is there and open; each refusal has its code. |
| `BoardAnswers.ReopenAnswers` | back/internal/app/board/progress.go:118-128 | A task is reopened if and only if it is there and completed; each refusal has its code. |
| `BoardAnswers.PromoteAnswers` | back/internal/app/board/move.go:144-177 | A task is promoted if and only if it is there, is a subtask, and no unknown quadrant is asked for. |
| `BoardAnswers.MoveAnswers` | back/internal/app/board/move.go:34-137 | Which code answers which move: missing, completed, two destinations, not a subtask, another parent, no destination, two neighbours, or a neighbour that is not another task of the list named; otherwise it is accepted. |
| `BoardAnswers.UpdateAnswers` | back/internal/app/board/write.go:148-179 | Which code answers which edit, and exactly which deadline and time of day an accepted one leaves. |
| `BoardAnswers.LinkAnswers` | back/internal/app/graph/links.go:58-120 | Which code answers which link, in the order of the checks, with the five of a free account and the undirected types in figures. |
| `BoardAnswers.LinkIsStored` | back/internal/domain/link/link.go:36-63 | A link drawn is stored with the ends and type sent, RELATED when none was, and counted once. |
| `BoardAnswers.RetypeAnswers` | back/internal/app/graph/links.go:123-150 | Which code answers which retyping; an accepted one keeps the ends. |
| `BoardAnswers.UnlocksExactlyTheEntitled` | back/internal/app/achievement/service.go:83-166 | After a completion or a link the account holds what it held and exactly the catalogue rows whose metric, read off the account, stands at the threshold or past it. |
| `BoardEffects.CompleteStamps` | back/internal/app/board/progress.go:53-84 | Completing stamps the task with the time, DIRECT, the quadrant it is judged by and the price, and every open subtask with the same time and quadrant, PARENT_CASCADE and a subtask's price; no other row changes. Prices are a table. |
| `BoardEffects.CreateMakesTheDraft` | back/internal/app/board/write.go:84-145 | The new row is open and unpaid, under the parent or in the quadrant drafted, due when the draft says, with a time of day only beside a deadline. |
| `BoardEffects.MoveGoesWhereNamed` | back/internal/app/board/move.go:64-137 | An accepted move names exactly one destination; the task is in the quadrant named and under nobody, or still under the parent named, and nothing but its place changed. |
| `BoardEffects.PromoteGoesWhereAsked` | back/internal/app/board/move.go:144-242 | A promoted subtask is under nobody, in the quadrant asked for or else its parent's. |
| `BoardBooks.CompletePays` | back/internal/app/board/progress.go:203-300 | Completing writes one entry at the task's price and one at a subtask's price for each open subtask, nothing else; XP grows by their sum, and each completion is counted with its own kind. |
| `BoardBooks.ReopenTakesBack` | back/internal/app/board/progress.go:114-171 | Reopening writes one entry taking back the award, counts one completion less of the present kind, clears the four fields and changes no other row. |
| `BoardBooks.DeleteTakesBack` | back/internal/app/board/move.go:251-334 | Deleting writes exactly one entry for each completed row that goes, taking back what it was paid, and uncounts each with its own kind. |
| `BoardCounters.CountersByKind` | back/internal/app/board/progress.go:203-263 | In every run TasksCompleted is the live completed tasks less, and SubtasksCompleted the live completed subtasks plus, the finished subtasks promoted so far; so each is right if and only if there were none. |
| `BoardCounters.PromotedThenReopened` | back/internal/app/board/progress.go:140-148 | A finished subtask promoted and reopened takes a completion from the counter of tasks and leaves the one of subtasks. |
| `BoardOrder.PlacedListing` | back/internal/app/board/move.go:181-226 | After Reposition and Update the scope lists exactly what Place decided. |
| `BoardOrder.DeletedListing` | back/internal/app/board/move.go:251-300 | A deletion takes its rows out of every list and keeps the order of the rest. |
| `BoardLists.PlacingOrders` | back/internal/app/board/move.go:93-226 | Placing a row is list insertion in its new scope and removal in every other, without new ties, in range. |
| `BoardLists.CreatedTaskOrders` | back/internal/app/board/write.go:112-132 | A new task is appended to its quadrant and changes no other list. |
| `BoardLists.CreatedSubtaskOrders` | back/internal/app/board/write.go:91-111 | A new subtask changes no other list, and is appended to its own when it would end up last. |
| `BoardLists.CreatedSubtaskTies` | back/internal/app/board/write.go:105 | The list stays strictly increasing if and only if it was and the end was free. |
| `BoardLists.SubtaskNotLast` | back/internal/app/board/write.go:105 | Otherwise it is not appended: the discarded placements break the order. |
| `BoardOrderRuns.CreatedSubtaskFollows` | back/internal/app/board/write.go:105 | The condition is exact: the list grows at its end if and only if the subtask, by position and id, comes last. |
| `BoardOrderRuns.ServeFollows` | back/internal/app/board/move.go:34-226 | One accepted request does to every sorted scope what the plain list operation does, if and only if it does not add a subtask where it cannot come last; and a strict scope stays strict if and only if it does not add one where the end is taken. |
| `BoardOrderRuns.PositionsStayInRange` | back/internal/domain/task/position.go:17 | In every run of small enough scopes every live position is in 1..2^30. |
| `BoardOrderRuns.PositionsRefineLists` | back/internal/app/board/move.go:93-226 | All along a run, sorting a scope by position gives the list built by plain insertion at the named neighbour, appending and removal, if and only if every subtask added to it was due to come last. |
| `BoardOrderRuns.PositionsNeverTie` | back/internal/domain/task/position.go:35-92 | All along a run the positions of a scope are strictly increasing, if and only if every subtask added to it found the end free. |
| `BoardOrderRuns.QuadrantsRefineLists` | back/internal/app/board/move.go:181-226 | For the quadrants both hold without any condition. |
| `BoardOrderLimits.OrderBreaksInARun` | back/internal/app/board/write.go:105 | A run of an account from its beginning, in order all along, whose last request lists a new subtask before its siblings and ties it with one of them. |
| `Database.Store.ByID` | back/internal/adapter/postgres/task_write.go:23-62 | A live row as an object of its own, or TASK_NOT_FOUND. |
| `Database.Store.Subtasks` | back/internal/adapter/postgres/task_write.go:286-341 | The ordered listing of one parent, each slot with its row. |
| `BoardService.Service.Award` | back/internal/app/board/progress.go:203-263 | The statements of award write the row and the ledger entry and move delta and report together, as the specification's step does. |
| `BoardService.Service.AwardSubtasks` | back/internal/app/board/progress.go:69-84 | The loop over subtasks read beforehand is the cascade, skipping those done. |
| `BoardService.Service.ApplyProgress` | back/internal/app/board/progress.go:266-300 | The aggregate moves by the delta and the level with it; a crossing is reported exactly when the level rose. |
| `BoardService.Service.Complete` | back/internal/app/board/progress.go:39-107 | Commits what the specification says, or changes nothing and answers its code; reports as XP exactly what lifetime XP gained, and what was unlocked. |
| `BoardService.Service.Reopen` | back/internal/app/board/progress.go:114-171 | The same for Reopen, reporting a loss. |
| `BoardService.Service.Collect` | back/internal/app/board/move.go:259-274 | Which rows a deletion takes, or HAS_ACTIVE_SUBTASKS. |
| `BoardService.Service.Delete` | back/internal/app/board/move.go:251-300 | Commits the specification's deletion and answers the ids that went, or changes nothing. |
| `BoardService.Service.PlaceInQuadrant` | back/internal/app/board/move.go:181-226 | Reads, filters, places, renumbers and writes as the specification's placement, a subtask being promoted on the way. |
| `BoardService.Service.PlaceUnderParent` | back/internal/app/board/move.go:93-137 | The same among siblings, only under the parent the task already has. |
| `BoardService.Service.MoveTask` | back/internal/app/board/move.go:34-86 | Commits the move or changes nothing. |
| `BoardService.Service.Promote` | back/internal/app/board/move.go:144-177 | Commits the promotion or changes nothing. |
| `BoardService.Service.DraftToItem` | back/internal/app/board/write.go:84-145 | The new row, the renumbering written for a quadrant and thrown away for a parent. |
| `BoardService.Service.Create` | back/internal/app/board/write.go:43-82 | Commits the creation and answers the new row, or changes nothing. |
| `BoardService.Service.Update` | back/internal/app/board/write.go:148-179 | Commits the edit and answers the row, or changes nothing. |
| `BoardService.Service.Evaluate` | back/internal/app/achievement/service.go:83-138 | The loop writes exactly the specification's unlocks and counts them. |
| `BoardService.Service.LinkTasks` | back/internal/app/graph/links.go:58-120 | Commits the link or changes nothing, the checks in their order. |
| `BoardService.Service.Retype` | back/internal/app/graph/links.go:123-150 | Commits the new type or changes nothing. |
| `BoardService.Service.HandleAll` | back/internal/app/board/progress.go:33-38 | A store served request by request from its beginning is the run of the specification, and in order. |
| `RefreshStore.AnswersFollowHistory` | back/internal/adapter/redis/refresh.go:29-117 | At every interleaving of generation reads, SETs, scripts, DELs and revocations, a Consume is told what the history of its token and the clock say. |
| `RefreshStore.ValidExactlyWhen` | back/internal/adapter/redis/refresh.go:29-97 | At every interleaving a Consume is answered Valid if and only if the token was stored under the generation it had read, has not run out, and was neither answered Valid nor dropped while live before. |
| `RefreshStore.ValidAtMostOnce` | back/internal/adapter/redis/refresh.go:46-57 | A token is answered Valid at most once. |
| `RefreshStore.SpentIsOver` | back/internal/adapter/redis/refresh.go:46-86 | After that it is JustRotated exactly within the grace and the generation, and Unknown ever after. |
| `RefreshStore.ForgivenOnlyAfterValid` | back/internal/adapter/redis/refresh.go:46-86 | JustRotated is only said of a token spent before, within the grace that followed. |
| `RefreshStore.DroppedIsUnknown` | back/internal/adapter/redis/refresh.go:88-97 | A token dropped while live is Unknown to every Consume, earlier or later. |
| `RefreshStore.DroppedComesBackExactlyWhen` | back/internal/adapter/redis/refresh.go:88-97 | A token stored before it was dropped, live or not, is honoured later if and only if it had been spent before the Drop, in the same generation, and its grace is not over; the Drop names the generation of the token, or else the Consume began after the Drop and the Drop after the save, since an earlier reader is a case of its own. |
| `RefreshStore.DroppedAfterRotationComesBack` | back/internal/app/auth/service.go:246-253 | A run in which that happens: rotated, dropped, and answered JustRotated. |
| `RefreshStore.RevokedIsUnknown` | back/internal/adapter/redis/refresh.go:99-117 | A Consume whose generation read follows a RevokeAll honours no token whose save had read the generation before it. |
| `RefreshStore.EarlierReaderIsStillHonoured` | back/internal/adapter/redis/refresh.go:64-86 | That condition is needed: a Consume that read the generation first may still be answered Valid after the revocation. |
| `RefreshStore.EveryRunKeepsInv` | back/internal/adapter/redis/refresh.go:29-132 | At every interleaving the keys in Redis are exactly those the history calls for. |
| `Sessions.TokenStore.Save` | back/internal/adapter/redis/refresh.go:29-38 | Both steps of Save, undisturbed; the keys stay those of the history. |
| `Sessions.TokenStore.Consume` | back/internal/adapter/redis/refresh.go:64-86 | Answers what history and clock say, and leaves the keys of the longer history. |
| `Sessions.TokenStore.Drop` | back/internal/adapter/redis/refresh.go:88-97 | Deletes a live token and leaves no marker. |
| `Sessions.TokenStore.RevokeAll` | back/internal/adapter/redis/refresh.go:99-106 | Afterwards no token of the account is honoured at any time. |
| `Sessions.RevokedAllOver` | back/internal/adapter/redis/refresh.go:99-106 | No token ever issued belongs to a new generation. |
| `Sessions.Service.Refresh` | back/internal/app/auth/service.go:227-244 | Valid or just rotated: a new token is held and the presented one is spent; Unknown: SESSION_EXPIRED and every token of the account is over. |
| `Sessions.Service.Logout` | back/internal/app/auth/service.go:246-253 | A live token is gone for good; one already spent keeps what is left of its grace; no other token changes. |
| `Sessions.Service.LogoutAll` | back/internal/app/auth/service.go:255-258 | No token of the account is honoured any more. |
| `Renewal.OneRenewalAtATime` | front/src/shared/api/client.ts:161-230 | For any tabs and requests, with every answer delivered: every presented token is found Valid, no CSRF value is renewed twice, nothing is revoked, nobody is told the session is over. |
| `Renewal.GraceCarriesLostAnswers` | back/internal/app/auth/service.go:214-244 | With answers lost and asked again, until something is revoked a presented token is refused if and only if it was spent a whole grace ago. |
| `Renewal.RevokedOnlyForLateness` | back/internal/app/auth/service.go:227-237 | The account is never revoked but for such a late presentation. |
| `Renewal.ForgivenGetsAFreshPair` | back/internal/app/auth/service.go:239-244 | A presentation that is not refused is answered with a pair never handed out before, held by the store for its whole lifetime, when nobody comes between the two steps of the save. |
| `Renewal.AnswersAreInForce` | back/internal/app/auth/service.go:301-322 | Until something is revoked, every pair on its way to a browser is in force and not the one the browser has, whoever came in between. |
| `Renewal.EveryRunKeepsBase` | front/src/shared/api/client.ts:202-214 | In every reachable state the store agrees with what the requests are doing; until something is revoked the browser has a token that is held and not run out, or that was spent, and whoever holds the lock presents that token. |
| `RenewalProgress.EveryPostWasDue` | front/src/shared/api/client.ts:202-230 | In every run each renewal carries the browser's CSRF value of that moment and was sent for a request that went out with this very value and was refused, or for a rotation on purpose. |
| `RenewalProgress.RenewsExactlyWhenDue` | front/src/shared/api/client.ts:202-214 | The holder of the lock posts if and only if the browser still has the value its request was sent with; else it is done, with true if the browser has another value, false if none. |
| `RenewalProgress.RotatesWheneverSignedIn` | front/src/shared/api/client.ts:220-230 | A rotation on purpose posts whatever value the browser has, and fails only without one. |
| `RenewalProgress.RenewedMeansChanged` | front/src/shared/api/client.ts:184-214 | In every run, answers lost or not, a request told to try again finds another CSRF value than it was sent with, or none; one told the session is over finds none. |
| `RenewalProgress.FirstRefusedRenews` | front/src/shared/api/client.ts:202-214 | A run: the first request refused in a session posts its value. |
| `RenewalProgress.OneRoundRenews` | front/src/shared/api/client.ts:161-214 | With no answer lost, a request whose turn it is ends renewed after one round of its own moves, leaves the lock and changes no other request. |
| `RenewalProgress.NobodyWaitsForEver` | front/src/shared/api/client.ts:161-171 | With no answer lost, every refused or rotating request of every reachable state is renewed after at most two rounds, the holder's and its own. |
| `VersionedCache.HitsOutliveNoInvalidation` | back/internal/adapter/redis/cache.go:57-107 | A hit whose GetInto began after an invalidation came from a Set that read the version after it. |
| `VersionedCache.VersionsNeverDecrease` | back/internal/adapter/redis/cache.go:101-122 | A scope's version never goes back. |
| `VersionedCache.StaleExactlyWhen` | back/internal/app/preferences/reader.go:35-56 | Such a hit misses the invalidated write if and only if its filer loaded before the write; that the filer read the version after the invalidation is true of every such hit. |
| `VersionedCache.StaleReadIsPossible` | back/README.md:244-247 | A run in which exactly that happens, against the documentation. |
| `VersionedCache.Cache.GetInto` | back/internal/adapter/redis/cache.go:57-78 | Finds what is filed under the current version. |
| `VersionedCache.Cache.Set` | back/internal/adapter/redis/cache.go:81-99 | The key now reads as the value, no other key changes. |
| `VersionedCache.Cache.Invalidate` | back/internal/adapter/redis/cache.go:102-107 | Every key of the scope misses, no other scope changes. |
| `VersionedCache.Cache.Settings` | back/internal/app/preferences/reader.go:35-56 | Answers what the cache has or the row, which it then has. |
| `RateLimit.LimitPerLifetime` | back/internal/adapter/redis/ratelimit.go:33-59 | No lifetime of a key admits more than the limit, at any interleaving of INCR, TTL and EXPIRE. |
| `RateLimit.TwiceTheLimitPerWindow` | back/internal/adapter/redis/ratelimit.go:33-75 | No half-open span of one window admits more than twice the limit. |
| `RateLimit.RefusedOnlyPastTheLimit` | back/internal/adapter/redis/ratelimit.go:50-58 | An attempt is admitted if and only if its number is within the limit; a refusal means the limit was counted. |
| `RateLimit.MissingExpiryIsRepaired` | back/internal/adapter/redis/ratelimit.go:62-75 | A caller past ensureWindow leaves a counter that ends. |
| `RateLimit.WindowMovesOnlyWhenDue` | back/internal/adapter/redis/ratelimit.go:62-75 | At every interleaving an expiry only ever moves to a window from now, by the first attempt of the lifetime or one that had found no expiry. |
| `RateLimit.UndisturbedAttempt` | back/internal/adapter/redis/ratelimit.go:33-75 | From any reachable state an undisturbed attempt counts one in the running window, whose end stays, or begins a window now, and is let through exactly up to the limit. |
| `RateLimit.RateLimiter.Allow` | back/internal/adapter/redis/ratelimit.go:33-59 | One undisturbed attempt: let through exactly while the window has room, counted either way, the window never prolonged. |
| `RateLimit.RateLimiter.EnsureWindow` | back/internal/adapter/redis/ratelimit.go:62-75 | The expiry is set for the first attempt or when missing, and otherwise kept. |
| `Streak.StreakIsTheRun` | back/internal/adapter/postgres/user_repo.go:196-239 | For visits in order of time the incremental streak is the brute-force one: the run ending at the last day, and the longest run there is. |
| `Streak.OrderIsNeeded` | back/internal/adapter/postgres/user_repo.go:212-224 | Out of order the row and the calendar disagree. |
| `Streak.GateChangesNothing` | back/internal/app/profile/service.go:86-159 | With cache entries lost at any time, the row behind the gate is the one every visit touched. |
| `Streak.GateRemembers` | back/internal/app/profile/service.go:135-159 | The gate stops exactly the days it was shown and whose entry was not lost since. |
| `Streak.Profile.TouchStreak` | back/internal/adapter/postgres/user_repo.go:202-239 | The CASEs as one update; extended is reported exactly when the row changed. |
| `Streak.Profile.TouchDay` | back/internal/app/profile/service.go:86-133 | One visit through the gate. |
| `TagRows.FitsInRows` | front/src/features/filters/TagFilter.tsx:13-28 | The loop answers true exactly when the greedy pen stays within the rows and no chip is too wide. |
| `TagRows.TwoInARow` | front/src/features/filters/TagFilter.tsx:9-28 | Two chips fit one row if and only if they and four pixels do. |
| `TagRows.GreedyIsOptimal` | front/src/features/filters/TagFilter.tsx:13-28 | No layout in order has fewer rows than the greedy one, nor as many with a shorter last row. |
| `TagRows.GreedyDecides` | front/src/features/filters/TagFilter.tsx:13-28 | fitsInRows is true if and only if some in-order cut into at most max(1, maxRows) rows fits. |
| `TagRows.DownwardClosed` | front/src/features/filters/TagFilter.tsx:39-42 | What can be shown with the button can be shown with fewer chips and the button. |
| `TagRows.VisibleCountFor` | front/src/features/filters/TagFilter.tsx:31-43 | The count can be shown and no larger one can, by any in-order layout. |
| `Base64.DecodeUndoesEncode` | back/pkg/utils/password.go:190-194 | Unpadded base64 of RFC 4648, sections 4 and 5: reading what was printed gives the bytes back, and the text holds no dollar sign. |
| `Base64.DigitIsItsLetter` | back/pkg/utils/password.go:190-194 | The digit of every sextet is its character in the alphabets of RFC 4648, sections 4 and 5, written out. |
| `Base64.EncodeSpells` | back/pkg/utils/password.go:190-194 | What is printed spells the bytes, three in four characters, a rest of one in two and of two in three. |
| `Base64.OnlyItsOwnLetters` | back/internal/app/profile/service.go:331-334 | The URL alphabet never prints + or /, the standard one never - or _. |
| `Base64.PlusAndSlash` | back/pkg/utils/password.go:190-194 | The bytes 251, 255 print +/8 in the standard alphabet and -_8 in the URL one. |
| `Base64.DecodeRefusesExactly` | back/pkg/utils/password.go:216-223 | A text is refused if and only if one character is left over or one, line breaks apart, is not of the alphabet. |
| `PasswordHash.ParseUndoesPrint` | back/pkg/utils/password.go:188-231 | Splitting, scanning and decoding a printed hash recovers parameters, salt and key. |
| `PasswordHash.PrintedForm` | back/pkg/utils/password.go:190-194 | The printed form, piece by piece, with its version and field names. |
| `PasswordHash.NothingWraps` | back/pkg/utils/password.go:91-119 | Within the validated bounds no uint32 product wraps. |
| `PasswordHash.UnboundedMemoryWraps` | back/pkg/utils/password.go:32-43 | Without them one would, to zero; such parameters are refused. |
| `PasswordHash.AcceptedExactlyWhen` | back/pkg/utils/password.go:233-240 | A hash issued under P1 is accepted under P2 if and only if its memory is within P2's ceiling, its passes within 8 times P2's, its lanes within max(4, P2's). |
| `PasswordHash.PrintedHashVerdict` | back/pkg/utils/password.go:177-250 | A hash printed under one setting and verified under another is beyond reach exactly when memory, passes or lanes are, a mismatch exactly when they are not and the keys differ, and right otherwise. |
| `PasswordHash.NoRowAsksForMore` | back/pkg/utils/password.go:225-240 | Of any stored text whatever: unreadable, or with something of everything, and then refused if and only if memory, passes or lanes are beyond the setting. |
| `PasswordHash.PrintedReadsAsIssued` | back/pkg/utils/password.go:177-231 | What hash prints reads as what it issued. |
| `PasswordHash.RightPasswordVerifies` | back/pkg/utils/password.go:177-250 | The right password verifies under the setting that issued the hash. |
| `PasswordHash.Hasher.Hash` | back/pkg/utils/password.go:177-196 | Prints the hash under a slot it gives back, or is busy. |
| `PasswordHash.Hasher.Verify` | back/pkg/utils/password.go:198-250 | Malformed or excessive hashes are refused without a slot; Busy only when all are taken; the slot is given back. |
| `Pagination.EveryEventOnce` | back/internal/app/profile/service.go:288-362 | Following the NextCursor strings to the end shows every event of the first request exactly once, later instants first and then greater ids, whatever is added meanwhile and however many rows each request asks for. |
| `Pagination.StringsFollowKeys` | back/internal/app/profile/service.go:329-362 | Cursors sent back as strings continue exactly at the keys they stand for. |
| `Pagination.TheEndIsReached` | back/internal/app/profile/service.go:288-315 | The end comes after at most one request more than there are events. |
| `Pagination.PageHolds` | back/internal/app/profile/service.go:288-315 | A page continues below its cursor, leaves nothing out above its own cursor, and has a cursor exactly when there is more. |
| `Pagination.PageSize` | back/internal/app/profile/service.go:288-301 | A page has as many rows as were asked for, 30 for none and 100 at most, or all there are. |
| `Pagination.TopHolds` | back/internal/adapter/postgres/activity_repo.go:156-172 | The keyset query returns descending rows, as many as asked or all, and nothing it left out is above any of them. |
| `Pagination.DecodeUndoesEncode` | back/internal/app/profile/service.go:329-362 | decodeCursor undoes encodeCursor. |
| `Pagination.CursorIsReadExactly` | back/internal/app/profile/service.go:336-362 | A cursor from outside is read if and only if it is empty, or unpadded base64url of an instant, one space and an id. |
| `Pagination.ReadEvents` | back/internal/adapter/postgres/activity_repo.go:156-207 | Collecting the newest row that is left, up to the limit, is the query. |
| `Pagination.Events` | back/internal/app/profile/service.go:288-315 | The page and its cursor, or the error of a cursor that cannot be read. |

## Left out

- Interleavings of board requests in the database: each request is one atomic transaction, as `Update` and the cascade read rows without locking them and conservation under free interleaving is not claimed.
- A second account's rows: every statement is confined to one user, so one account is modelled.
- Titles, descriptions and colours: their verdict is the `wellFormed` field of a draft or patch.
- Activity events, tags and timestamps other than completion and deletion.
- BoardMoves.UpdateOutcome: edits of title, description and colour are one verdict, because they change nothing the other requests look at.
- BoardService.Service.Complete: the tasks it completed are not in the answer, as `CompleteOutcome` says which they are.
- BoardService.Service.Reopen: the reopened task is not in the answer, for the same reason.
- BoardService.Service.MoveTask: the changed tasks are not in the answer, as the renumbered siblings come back as id and position only.
- BoardService.Service.Promote: the changed tasks are not in the answer, for the same reason.
- Widths of the aggregate columns and of XP: unbounded integers; positions are int32.
- Floating point in rewards and levels: exact integers; tag widths are reals.
- Standing claims the code does not keep: a bound on open tasks across reopening, a completed parent having only completed subtasks.
- Database.Store methods beyond the two listed: each is one SQL statement, equal by its contract to the function of `Board` the requests are proved about.
- Renewal.OneRenewalAtATime: assumes that no refresh token the browser holds reaches the end of its own lifetime, that nobody signs in or out meanwhile, and that the Web Lock exists; the one-tab queue that stands in for it, the repetition of the request after a renewal and the refusals that are not about the session are not modelled.
- Renewal.EveryRunKeepsBase: says nothing of the browser once the account has been revoked.
- RefreshStore: token strings are opaque, so that a token key and a marker key never coincide; Redis does not fail; the access block list is not part of this model.
- RateLimit.RateLimiter.Allow: Redis does not fail; the paths on which a failure lets the attempt through have no count to speak of.
- RateLimit.TwiceTheLimitPerWindow: counts an attempt at its INCR; attempts let through because Redis failed are not counted.
- VersionedCache: hashing of key arguments, so distinct keys never share a slot; expiry is an entry that disappears at any time.
- Streak.GateChangesNothing: one visit has one day; the two clock reads of a visit across midnight are not told apart.
- Streak.Profile.TouchDay: the event and the achievements that go with an extended streak are not modelled.
- PasswordHash.Hasher.Hash: one caller's view, other callers being the slots already taken; waiting for a slot and cancellation are not modelled.
- PasswordHash.Hasher.Verify: the same view.
- PasswordHash: Argon2 is an unknown function of its arguments; the dummy hash of unknown names is left out; scanning treats blank and tab as the only spaces.
- Pagination.DecodeUndoesEncode: the spelling of instants and UUIDs is a parameter that reads back and holds no space.
- HTTP handlers, cookies, configuration, search, leaderboards, heatmaps and the browser's components: no property beyond a branch.
