# Verification model of Mirage

Mirage keeps three worlds in agreement without a transaction across them:
links persisted in SQLite, running processes, and entries in the route array of
a Caddy server that other controllers share. This Dafny project models the four
places where that agreement, and what is built on it, is decided, and proves
what they promise. `dafny verify dfyconfig.toml` checks everything.

**The Caddy route array** (`CaddyRoutes`, `CaddyUndo`, `CaddyPlan`, `CaddyEdits`,
`CaddyAdmin`, `CaddyRecovery`, `CaddyExposure`, `CaddyPhases`, `CaddyFragility`,
`CaddyLoss`, `CaddyBreak`, `CaddyClient`, `CaddyRuns`; generic lemmas in `Sequences`).
The client edits a remote array one request at a time; each write
is accepted, refused, or accepted with its answer lost. Entries carry their
parsed fields and the rest of their bytes, so "byte for byte" has content. The
result of a successful Reconcile is a function of the snapshot and the visiting
order, and everything it promises is proved of that function; the three phases
are proved to compute it while keeping the snapshot recoverable.

**The lifecycle coordinator** (`Rows`, `Repository`, `HealthGate`, `Environment`,
`Agreement`, `Repair`, `Lifecycle`, `RestartBackoff`). The database is two row
sets updated in place; the ports are a nondeterministic environment of which
nothing is assumed but the port contracts (`Ports`), except that the proxy is the
Caddy client itself, over an unreliable connection to the route array. Every call
may fail at any point, and a failed save, stop, release or route change may have
had its effect. A monitor over the trace of calls, saves included, holds the order
in which the coordinator may act.

**The bounded log** (`LogRing`, `LogFollowers`, `LogStore`) and **the drain gate**
(`DrainGate`) are small protocols; each critical section, or each step of a
goroutine, is one method or step, and the results hold over every interleaving.

## How failures are counted

- Processes are named by live records as long as no SaveLink call failed (`lostSaves`).
- Routes are owned by live records unless the array is broken (`degraded`): a Reconcile
  reported an unrestored array, the array was fragile, and no successful Reconcile or
  Shutdown has put it right since. Whether an array is fragile for a desired list
  (`CaddyFragility.Fragile`) can be read off both before the call. `degraded` and
  `lostSaves` are ghost state of the model.
- A process counts as running from a successful Start until it exits or a successful Stop.
- A restart lapses (`Agreement.LapseOf`) when it costs the agreement; the next section says
  how. Until one does, both statements hold over every run.
- The route array is well-formed when every element parses, owned identities are
  unique and no owned entry follows the first fallback. The seed is well-formed
  and every call keeps it so, except a Reconcile that reports an unrestored array
  of a fragile snapshot. `CaddyRuns.DuplicatesSurvive` shows what happens without it.

## Where the code and its promises part

- A rollback in which a compensation fails can overwrite an entry of another
  controller, which the proxy port forbids (internal/application/ports/ports.go:79-81):
  deletions that are not undone shift later entries into a slot that a PUT then
  restores. It can happen if and only if the snapshot holds an entry to repair and,
  behind it, a foreign entry that is no further away than there are orphans in front
  of it (`CaddyExposure.Exposed`, `CaddyLoss.LossIffExposed`), which can be read off the
  snapshot and the desired routes beforehand; otherwise `CaddyClient.Client.Reconcile`
  never loses one. `CaddyRuns.RollbackCanOverwriteForeign` is a concrete case. The call
  then reports an incomplete or indeterminate rollback.
- Such a rollback can also break the array itself: leave two entries of one link, or put
  an owned entry behind the fallback (`CaddyBreak.BrokenIffFragile` gives the exact
  condition, `CaddyBreak.DoubledIffMayDouble` that of the first kind alone). A doubled
  link survives its successful Remove (`CaddyRuns.RemovalLeavesTheCopy`); an orphan
  behind the fallback survives a successful Reconcile that has routes to insert
  (`CaddyRuns.BuriedOrphanStays`). A later successful Reconcile puts the array right if
  and only if it was not stuck (`CaddyRecovery.RestoredIffNotStuck`); one of the empty
  list, as at Shutdown, always does.
- `start` saves the health-check URL with the port already filled in
  (internal/application/service.go:369-377), so a restart on another port probes the
  first port, where docs/product.md:57 promises interpolation for every start. The probe
  that lets a port be published tells it from every other port if and only if the record
  of that start still held the placeholder (`HealthGate.PublishedPortWasProbedIff`);
  `Lifecycle.Service.CreateThenRestart` is the instance where it does not.
- `runScheduledRestart` drops the recorded identity without stopping the process
  (internal/application/service.go:767-770). Every process stays named if and only if
  that process had already exited (`Agreement.ForgettingNeedsAnExitedProcess`).
- A crashed link keeps its route. If its restart is due and the link expires between the
  reading of the clock at internal/application/service.go:758 and the one at :341, `start`
  archives the record and leaves the route (`Agreement.ExpiredStartLeavesARoute`), until a
  successful Reconcile withdraws it. Without a route, or before the expiry, it cannot.
- When the start of a restart fails, leaves a process running, and the record cannot be
  reread, planning the next restart saves the copy made before the start over the record,
  and drops the identity again (`Agreement.StaleCopyLosesAProcess`).
- These three are the only ways a restart loses the agreement: it agrees afterwards if and
  only if none of them happened, except that nothing is claimed of processes once a save
  was lost (`Lifecycle.Service.RunScheduledRestart`, over whole runs
  `Lifecycle.Service.AnyRun`).
- `Ready` reads `draining` under the lock and `ready` after it
  (internal/adapters/inbound/httpapi/httpapi.go:69-74), so a check that looked before
  admission was closed can answer yes after Drain has returned nil, if somebody sets ready
  again; a check that begins later cannot (`DrainGate.LateYesIff`,
  `DrainGate.LaterChecksSayNo`, `DrainGate.ReadyAfterDrain`).

## Model

| member | source | states |
|---|---|---|
| `CaddyRoutes.RouteIDRoundTrip` | internal/adapters/outbound/caddy/caddy.go:135-136 | an owned identity names exactly one link, and an empty link id makes none |
| `CaddyRoutes.OwnedIDIsRouteID` | internal/adapters/outbound/caddy/caddy.go:135-136 | every owned identity is the encoding of the link id it carries |
| `CaddyRoutes.DecodeEncode` | internal/adapters/outbound/caddy/caddy.go:152-174 | decode inverts encode if and only if the link id and the upstream are non-empty |
| `CaddyRoutes.DecodedIsEncodable` | internal/adapters/outbound/caddy/caddy.go:169-174 | whatever decodes could have been written by encode, under the same identity |
| `CaddyRoutes.CanonFacts` | internal/adapters/outbound/caddy/caddy.go:152-177 | the entry written for a route is owned, is not the fallback, and decodes to the route |
| `CaddyRoutes.IndexOfUnique` | internal/adapters/outbound/caddy/caddy.go:202-203 | the linear search finds the first entry with an identity, or the end |
| `CaddyRoutes.FallbackAtUnique` | internal/adapters/outbound/caddy/caddy.go:182-189 | the search finds the first fallback, or the end |
| `CaddyRoutes.ViewKeys` | internal/adapters/outbound/caddy/caddy.go:243-249 | a link is in the owned view exactly when some entry decodes to a route of it |
| `CaddyRoutes.ViewAt` | internal/adapters/outbound/caddy/caddy.go:243-249 | with unique owned identities the view holds what each entry decodes to |
| `CaddyUndo.PutBackInverts` | internal/adapters/outbound/caddy/caddy.go:338-342 | the stacked PUT undoes a repair, whether or not the repair took effect |
| `CaddyUndo.TakeOutInverts` | internal/adapters/outbound/caddy/caddy.go:349-364 | the stacked DELETE undoes an insertion, applied or not, if and only if the identity was absent before |
| `CaddyUndo.ReinsertInverts` | internal/adapters/outbound/caddy/caddy.go:395-408 | the stacked POST undoes a deletion, applied or not, if and only if no byte-equal entry is left after it |
| `CaddyUndo.PushUndo` | internal/adapters/outbound/caddy/caddy.go:281-292 | if every compensation inverts its write, the stack replayed from the top restores the snapshot after one more write of unknown effect |
| `CaddyUndo.AllEffective` | internal/adapters/outbound/caddy/caddy.go:288-292 | a replay in which every compensation takes effect is the full replay |
| `CaddyUndo.UndoKeepsForeign` | internal/adapters/outbound/caddy/caddy.go:339-341 | one compensation leaves the foreign entries alone if and only if a PutBack finds an owned entry in its slot |
| `CaddyPlan.ReconciledWellFormed` | internal/adapters/outbound/caddy/caddy.go:322-413 | from a well-formed array, for any wanted table and visiting order, success leaves unique owned identities and no owned entry behind the fallback |
| `CaddyPlan.ReconciledForeign` | internal/adapters/outbound/caddy/caddy.go:322-413 | every entry of another controller keeps its bytes and its relative order |
| `CaddyPlan.ReconciledFaithful` | internal/adapters/outbound/caddy/caddy.go:322-413 | the owned entries decode to exactly the wanted routes |
| `CaddyPlan.FaithfulView` | internal/adapters/outbound/caddy/caddy.go:243-249 | a faithful array shows exactly the wanted table |
| `CaddyPlan.FaithfulIffSettled` | internal/adapters/outbound/caddy/caddy.go:324-394 | an array is faithful if and only if none of the three phases finds anything to write |
| `CaddyPlan.SettledResult` | internal/adapters/outbound/caddy/caddy.go:322-413 | a settled array is its own result |
| `CaddyPlan.FaithfulListed` | internal/adapters/outbound/caddy/caddy.go:236-250 | List of a faithful array is a permutation of the desired list |
| `CaddyEdits.AddedWellFormed` | internal/adapters/outbound/caddy/caddy.go:192-214 | an upsert keeps the array well-formed |
| `CaddyEdits.AddedForeign` | internal/adapters/outbound/caddy/caddy.go:211-213 | an upsert leaves every foreign entry byte for byte in order |
| `CaddyEdits.AddedView` | internal/adapters/outbound/caddy/caddy.go:192-214 | an upsert is a map update on the owned view |
| `CaddyEdits.RemovedWellFormed` | internal/adapters/outbound/caddy/caddy.go:217-233 | a removal keeps the array well-formed |
| `CaddyEdits.RemovedForeign` | internal/adapters/outbound/caddy/caddy.go:217-233 | a removal leaves every foreign entry byte for byte in order |
| `CaddyEdits.RemovedView` | internal/adapters/outbound/caddy/caddy.go:216-233 | a removal deletes one key of the owned view and nothing else |
| `CaddyEdits.AddMeets` | internal/adapters/outbound/caddy/caddy.go:191-214 | Add meets the proxy contract whatever its answer was |
| `CaddyEdits.RemoveMeets` | internal/adapters/outbound/caddy/caddy.go:216-233 | Remove meets the proxy contract whatever its answer was |
| `CaddyAdmin.Admin.Get` | internal/adapters/outbound/caddy/caddy.go:427-449 | a read answers with the whole array or fails |
| `CaddyAdmin.Admin.Send` | internal/adapters/outbound/caddy/caddy.go:450-510 | one attempt: accepted, refused, or accepted with the answer lost |
| `CaddyAdmin.SourcedRollback` | internal/adapters/outbound/caddy/caddy.go:288-292 | no rollback, however unreliable, brings in an entry that is neither of the snapshot nor wanted |
| `CaddyAdmin.TableTabulates` | internal/adapters/outbound/caddy/caddy.go:257-266 | the table built from a duplicate-free list holds exactly the list |
| `CaddyPhases.WriteRecoverable` | internal/adapters/outbound/caddy/caddy.go:338-364 | stacking the inverse before a write keeps the snapshot recoverable, whether or not the write takes effect |
| `CaddyPhases.RepairStep` | internal/adapters/outbound/caddy/caddy.go:324-346 | phase one invariant: a repaired prefix, and wanted without what was seen |
| `CaddyPhases.RepairSkip` | internal/adapters/outbound/caddy/caddy.go:324-337 | phase one invariant for an entry that is left alone |
| `CaddyPhases.InsertPrepared` | internal/adapters/outbound/caddy/caddy.go:349-364 | the identity about to be inserted is absent, so its compensation is exact |
| `CaddyPhases.InsertStep` | internal/adapters/outbound/caddy/caddy.go:363-369 | phase two invariant: the added routes sit before the first fallback in visiting order |
| `CaddyPhases.SweepPrepared` | internal/adapters/outbound/caddy/caddy.go:395-408 | the orphan about to be deleted has no byte-equal twin, so its compensation is exact |
| `CaddyPhases.SweepDelete` | internal/adapters/outbound/caddy/caddy.go:373-411 | phase three invariant: indices below the cursor are still the snapshot's, those above are filtered |
| `CaddyPhases.SweepKeep` | internal/adapters/outbound/caddy/caddy.go:373-394 | phase three invariant for a retained entry |
| `CaddyPhases.AlignedInsert` | internal/adapters/outbound/caddy/caddy.go:367-369 | the local copy of the array stays index for index with the remote one |
| `CaddyPhases.ReconcileMeets` | internal/adapters/outbound/caddy/caddy.go:252-413 | Reconcile meets the proxy contract on the owned view |
| `CaddyPhases.ClearStep` | internal/adapters/outbound/caddy/caddy.go:373-411 | the same invariant on any array that parses, well-formed or not |
| `CaddyRecovery.ClearedWellFormed` | internal/adapters/outbound/caddy/caddy.go:322-413 | what a successful Reconcile makes of any array that parses is, on a well-formed one, the planned result |
| `CaddyRecovery.WellFormedIsNotStuck` | internal/adapters/outbound/caddy/caddy.go:322-413 | a well-formed array is never stuck |
| `CaddyRecovery.RestoredIffNotStuck` | internal/adapters/outbound/caddy/caddy.go:371-394 | a successful Reconcile of any array leaves a well-formed one if and only if no desired link was doubled or behind a fallback and no orphan behind the fallback is pushed beyond the visited positions by insertions |
| `CaddyRecovery.RestoredFaithful` | internal/adapters/outbound/caddy/caddy.go:322-413 | then the owned entries decode to exactly the desired routes, whatever the array was |
| `CaddyRecovery.SecondRunReaches` | internal/adapters/outbound/caddy/caddy.go:373-375 | an orphan that one successful Reconcile did not visit is gone after the next |
| `CaddyRecovery.EmptyListUnsticks` | internal/application/reconcile.go:87-91 | sending the empty list leaves nothing stuck |
| `CaddyExposure.Counted` | internal/adapters/outbound/caddy/caddy.go:322-413 | with unique identities an array is its foreign entries, its desired links and its orphans |
| `CaddyExposure.Displacement` | internal/adapters/outbound/caddy/caddy.go:371-411 | in every array between snapshot and restoration a foreign entry comes forward at most by the orphans in front of it and, before the fallback, never moves back |
| `CaddyExposure.SlotIsSafe` | internal/adapters/outbound/caddy/caddy.go:338-341 | a foreign entry in the slot of a repaired one was in reach |
| `CaddyExposure.PlacedAdded` | internal/adapters/outbound/caddy/caddy.go:363-364 | an insertion in front of the fallback keeps the foreign entries placed |
| `CaddyExposure.UndoPlaced` | internal/adapters/outbound/caddy/caddy.go:349-362 | so does every removal and every re-insertion, however many before it failed |
| `CaddyExposure.UnexposedRollbackIsSafe` | internal/adapters/outbound/caddy/caddy.go:282-303 | if no foreign entry is in reach no rollback loses one, however its compensations behave |
| `CaddyLoss.RunDeletes` | internal/adapters/outbound/caddy/caddy.go:322-411 | the array and the stack of a run that has succeeded down to a given deletion |
| `CaddyLoss.Cut` | internal/adapters/outbound/caddy/caddy.go:373-411 | the deletion after which an exposed foreign entry has come forward into the slot |
| `CaddyLoss.InTheSlot` | internal/adapters/outbound/caddy/caddy.go:338-341 | the foreign entry is then where the PutBack writes |
| `CaddyLoss.ExposedRollbackLoses` | internal/adapters/outbound/caddy/caddy.go:282-303 | if a foreign entry is in reach, some run loses one |
| `CaddyLoss.LossIffExposed` | internal/application/ports/ports.go:79-81 | a partly failing rollback can lose an entry of another controller if and only if an entry needs repair, a foreign entry follows it, and at least as many orphans precede the foreign entry as it is behind |
| `CaddyFragility.SteadyPutBack` | internal/adapters/outbound/caddy/caddy.go:338-341 | a PutBack whose slot is its own, or beyond the end, leaves one entry per link and none behind the fallback |
| `CaddyFragility.FallbackBehindSlot` | internal/adapters/outbound/caddy/caddy.go:395-407 | unless an entry may be buried, the fallback stands behind every orphan's slot while all desired links are shown |
| `CaddyFragility.UprightReplay` | internal/adapters/outbound/caddy/caddy.go:395-407 | then no replay of the re-insertions, however it behaves, puts an owned entry behind the fallback |
| `CaddyFragility.HoldingLost` | internal/adapters/outbound/caddy/caddy.go:395-407 | after the first re-insertion that is lost, every slot to repair is still its own or beyond the end, unless an entry may be doubled |
| `CaddyFragility.RisenAfterReinserts` | internal/adapters/outbound/caddy/caddy.go:288-292 | the same after the whole replay of the re-insertions, however each behaved |
| `CaddyFragility.SturdyRollback` | internal/adapters/outbound/caddy/caddy.go:282-303 | unless an entry may be doubled no rollback doubles one; unless one may be buried none is put behind the fallback |
| `CaddyFragility.RepairsHalt` | internal/adapters/outbound/caddy/caddy.go:324-346 | a run that gives up in phase one is one of the stops this is proved for |
| `CaddyFragility.GivesUpInserting` | internal/adapters/outbound/caddy/caddy.go:349-366 | so is one that gives up in phase two, whether or not its last insertion took effect |
| `CaddyFragility.GivesUpSweeping` | internal/adapters/outbound/caddy/caddy.go:395-411 | and one that gives up in phase three, whether or not its last deletion took effect |
| `CaddyFragility.RollbackWorth` | internal/adapters/outbound/caddy/caddy.go:282-303 | what any rollback from any of these stops keeps of a snapshot that was not exposed or not fragile |
| `CaddyBreak.Doubling` | internal/adapters/outbound/caddy/caddy.go:338-341 | when an entry may be doubled some run doubles one |
| `CaddyBreak.Burying` | internal/adapters/outbound/caddy/caddy.go:395-407 | when an entry may be buried some run puts one behind the fallback |
| `CaddyBreak.DoubledIffMayDouble` | internal/adapters/outbound/caddy/caddy.go:282-303 | a partly failing rollback can leave two entries of one link if and only if an orphan precedes an entry to repair that is followed by an entry that stays or by an insertion |
| `CaddyBreak.BrokenIffFragile` | internal/adapters/outbound/caddy/caddy.go:282-303 | it can leave an array that is not well-formed if and only if an entry may be doubled or, with every orphan deleted and every missing route inserted, the fallback stands in front of the slot of some orphan |
| `CaddyClient.Client.Find` | internal/adapters/outbound/caddy/caddy.go:202-203 | linear search for an identity |
| `CaddyClient.Client.FallbackIndex` | internal/adapters/outbound/caddy/caddy.go:182-189 | linear search for the fallback |
| `CaddyClient.Client.Add` | internal/adapters/outbound/caddy/caddy.go:191-214 | the array is unchanged or upserted; nil means upserted; an invalid route sends nothing; the contract of the proxy port on the view |
| `CaddyClient.Client.Remove` | internal/adapters/outbound/caddy/caddy.go:216-233 | the array is unchanged or without the link's entry; nil means without; the contract of the proxy port on the view |
| `CaddyClient.Client.List` | internal/adapters/outbound/caddy/caddy.go:235-250 | the decodable owned routes in array order |
| `CaddyClient.Client.RunUndo` | internal/adapters/outbound/caddy/caddy.go:339-341 | one compensation takes effect or leaves the array as it found it; without a failing request it takes effect |
| `CaddyClient.Client.Rollback` | internal/adapters/outbound/caddy/caddy.go:282-303 | every compensation is attempted from the top; the cause is returned only if the array was seen equal to the snapshot; with working compensations the replay is complete |
| `CaddyClient.Client.Mutate` | internal/adapters/outbound/caddy/caddy.go:304-320 | nil means applied under a context live before and after; a done context means Timeout |
| `CaddyClient.Client.BuildWanted` | internal/adapters/outbound/caddy/caddy.go:257-266 | a list is refused exactly when a route is invalid or a link repeats; otherwise the table holds exactly the list |
| `CaddyClient.Client.Guarded` | internal/adapters/outbound/caddy/caddy.go:338-344 | the inverse is stacked before the write, so the snapshot is recoverable after it |
| `CaddyClient.Client.RepairPhase` | internal/adapters/outbound/caddy/caddy.go:322-346 | phase one ends with the repaired array and the missing routes, or recoverably at the first failure |
| `CaddyClient.Client.InsertPhase` | internal/adapters/outbound/caddy/caddy.go:347-370 | phase two ends with the widened array, for any iteration order, or recoverably at the first failure |
| `CaddyClient.Client.DeletePhase` | internal/adapters/outbound/caddy/caddy.go:371-411 | phase three ends with exactly the orphans among the visited positions gone, or recoverably at the first failure |
| `CaddyClient.Client.Condemned` | internal/adapters/outbound/caddy/caddy.go:376-394 | an entry is deleted exactly when it is owned and its link is not desired |
| `CaddyClient.Client.Reconcile` | internal/adapters/outbound/caddy/caddy.go:252-413 | refusal without a request; success only if every write succeeded and the context was live after each, with the exact result on any array that parses; any other error than an unrestored-array report means the snapshot, however compensation behaved; with working compensations failure restores it byte for byte and returns the cause; without a foreign entry in reach none is lost and on a snapshot that is not fragile the array stays well-formed, however compensation behaved; a settled array gets no write |
| `CaddyRuns.Take` | internal/adapters/outbound/caddy/caddy.go:191-413 | each client call is a step of the abstract history |
| `CaddyRuns.StepMeets` | internal/adapters/outbound/caddy/caddy.go:191-413 | every step but an unrestored report on an exposed or fragile array keeps the array well-formed, the foreign entries unchanged, and is a step of a finite map on the view |
| `CaddyRuns.HistoryMeets` | internal/adapters/outbound/caddy/caddy.go:191-413 | the same over any sequence of calls, failed ones and reports of an unrestored array included, unless that array was exposed or fragile |
| `CaddyRuns.SeededHistory` | internal/composition/command.go:121-123 | from the seed, any such sequence keeps the fallback the only foreign entry and the last one |
| `CaddyRuns.ReconcileTwice` | internal/adapters/outbound/caddy/caddy.go:322-394 | after a successful Reconcile any permutation of the list is settled, and List returns a permutation of it |
| `CaddyRuns.DuplicatesSurvive` | internal/adapters/outbound/caddy/caddy.go:383-394 | why unique owned ids are asked of the array: a wanted route listed twice counts as settled and both copies stay |
| `CaddyRuns.RollbackKeepsForeign` | internal/adapters/outbound/caddy/caddy.go:282-303 | a partly failing rollback leaves the foreign entries alone if and only if every PutBack that took effect found an owned entry in its slot |
| `CaddyRuns.LostReinsertion` | internal/adapters/outbound/caddy/caddy.go:282-303 | one lost re-insertion below a repaired slot makes the PutBack overwrite the foreign neighbour |
| `CaddyRuns.RollbackCanOverwriteForeign` | internal/application/ports/ports.go:79-81 | a concrete array on which the promise to leave foreign routes alone fails |
| `CaddyRuns.LaterReconcile` | internal/adapters/outbound/caddy/caddy.go:252-413 | what a later successful Reconcile restores of a broken array: well-formed and showing exactly the desired routes if and only if the array was not stuck |
| `CaddyRuns.RemovalLeavesTheCopy` | internal/adapters/outbound/caddy/caddy.go:216-233 | after a rollback that doubled a link, a successful Remove leaves it published |
| `CaddyRuns.RollbackCanBury` | internal/adapters/outbound/caddy/caddy.go:395-407 | two orphans, the lower re-insertion lost: the other ends up behind the fallback |
| `CaddyRuns.BuriedOutOfReach` | internal/adapters/outbound/caddy/caddy.go:373-375 | it is out of reach of a later Reconcile that has a route to insert |
| `CaddyRuns.BuriedOrphanStays` | internal/adapters/outbound/caddy/caddy.go:373-375 | that Reconcile succeeds and leaves it published |
| `Rows.SavedKeeps` | internal/adapters/outbound/libsql/store.go:372-382 | saving a live link with its stored expiry keeps the constraints; no other row changes; identity, name and expiry do not move |
| `Rows.ArchivedKeeps` | internal/adapters/outbound/libsql/store.go:383-394 | archiving keeps the constraints and touches one row |
| `Rows.InsertedKeeps` | internal/adapters/outbound/libsql/store.go:131 | an insert under the constraints keeps them |
| `Rows.SpaceArchivedKeeps` | internal/adapters/outbound/libsql/store.go:274-287 | archiving a space with its links in one transaction keeps the constraints |
| `Rows.ArchivedForever` | internal/adapters/outbound/libsql/store.go:131 | uniqueness covers archived rows: an archived name stays taken and no later row of that name is live |
| `Rows.HistoryEvolves` | internal/adapters/outbound/libsql/store.go:372-394 | over any history of row sets no expiry moves and no archived row changes |
| `Rows.ExpiryDominance` | internal/application/service.go:313-316 | a live link's space is live and expires no earlier than it |
| `Rows.ProbeFollowsPort` | internal/application/service.go:335-338 | filling in two different ports gives different probe URLs if and only if the stored URL still holds the placeholder |
| `Rows.ProbeIsOfOnePort` | internal/application/service.go:335-338 | the address probed for one port is that of no other port if and only if the stored URL still holds the placeholder |
| `Rows.UpstreamNamesPort` | internal/application/service.go:408-410 | the upstream of a route leads to exactly one port |
| `Rows.RestartProbesFirstPort` | internal/application/service.go:369-377 | the URL saved by the first start no longer holds the placeholder, so a restart on another port probes the first one |
| `Rows.DecimalInjective` | internal/application/service.go:335-338 | different ports have different digits |
| `Repository.Store.FindSpaceByAlias` | internal/adapters/outbound/libsql/store.go:254-256 | a live space by alias, or NotFound exactly when there is none |
| `Repository.Store.FindSpace` | internal/adapters/outbound/libsql/store.go:251-253 | a live space by id |
| `Repository.Store.FindLink` | internal/adapters/outbound/libsql/store.go:348-350 | a live link by space and name, or NotFound only when there is none |
| `Repository.Store.LinkDeleted` | internal/adapters/outbound/libsql/store.go:351-355 | true exactly when an archived row has the name |
| `Repository.Store.Collect` | internal/adapters/outbound/libsql/store.go:442-457 | a query returns each selected row once |
| `Repository.Store.ListLinks` | internal/adapters/outbound/libsql/store.go:356-371 | the live links of a space |
| `Repository.Store.ExpiredLinks` | internal/adapters/outbound/libsql/store.go:431-433 | the live links at or past their expiry |
| `Repository.Store.ReconciliationLinks` | internal/adapters/outbound/libsql/store.go:439-441 | the live unexpired links that are neither Deleted nor Expired |
| `Repository.Store.ExpiredSpaces` | internal/adapters/outbound/libsql/store.go:407-409 | the live spaces at or past their expiry |
| `Repository.Store.CreateSpace` | internal/adapters/outbound/libsql/store.go:232-235 | conflict on a taken id or alias, archived ones included |
| `Repository.Store.CreateLink` | internal/adapters/outbound/libsql/store.go:288-309 | conflict exactly on a taken id, an unknown space or a taken (space, name), archived rows included; a conflict changes nothing; a named link that does not outlive its space keeps the rows lawful |
| `Repository.Store.SaveLink` | internal/adapters/outbound/libsql/store.go:372-382 | updates a live row, expiry included, or answers NotFound; an error may hide an applied update; with the stored expiry the rows only evolve |
| `Repository.Store.DeleteLink` | internal/adapters/outbound/libsql/store.go:383-394 | archives a live row or answers NotFound |
| `Repository.Store.DeleteSpace` | internal/adapters/outbound/libsql/store.go:274-287 | archives a space and its live links together, or nothing |
| `Environment.World.Allocate` | internal/adapters/outbound/process/port.go:20-33 | a port nobody holds, reserved, or an error and nothing |
| `Environment.World.Start` | internal/adapters/outbound/process/supervisor_linux.go:57-114 | a fresh identity, or an error and nothing: the supervisor returns no error once a process runs |
| `Environment.World.Stop` | internal/application/ports/ports.go:61 | the process is gone on success and may be on an error |
| `Environment.World.AddRoute` | internal/application/ports/ports.go:76 | a call of the Caddy client over an unreliable connection to the array; the trace records the route that was sent |
| `Environment.World.RemoveRoute` | internal/application/ports/ports.go:77 | the same |
| `Environment.World.ReconcileRoutes` | internal/application/ports/ports.go:79-81 | the same; refused exactly for inadmissible lists; degrades the array only by an unrestored report on a fragile one; a success puts it right exactly when it was not stuck |
| `Agreement.SavedAgrees` | internal/application/service.go:350-378 | writing the record settles a start in progress, acknowledged or as a counted lost save |
| `Agreement.ArchivedAgrees` | internal/application/service.go:342-343 | archiving the record of a link none of whose processes is running keeps the agreement if and only if the link has no route |
| `Agreement.ExpiredStartLeavesARoute` | internal/application/service.go:767-775 | a link that crashed with its route published: dropping its identity keeps the agreement, archiving it as expired in the start that follows leaves the route behind |
| `Agreement.Forgotten` | internal/application/service.go:767-770 | a process that was running when its identity was dropped stays running and unnamed, so the agreement is lost unless a save was lost |
| `Agreement.CrashedIsIdle` | internal/application/service.go:700-703 | in agreement, once the process a record names has exited none of the link is running |
| `Agreement.StartedAgrees` | internal/application/service.go:358-363 | a started process is the only one not yet named |
| `Agreement.CompensatedAgrees` | internal/application/compensation/compensation.go:14-24 | compensation keeps the agreement, however many steps fail; complete, it leaves nothing of the link |
| `Agreement.CompensatedKeepsOthers` | internal/application/compensation/compensation.go:14-24 | compensation touches no other link's route or process |
| `Agreement.ForgettingNeedsAnExitedProcess` | internal/application/service.go:767-770 | dropping the recorded identity keeps every process named if and only if that process is no longer running |
| `Agreement.SweptMore` | internal/application/reconcile.go:100-104 | a sweep archives exactly its batch and leaves nothing of it outside |
| `Agreement.ExpiredSpaceIsEmpty` | internal/application/reconcile.go:109-119 | once no live link has expired, an expired space houses none: the second sweep finds nothing |
| `Agreement.SpacesSwept` | internal/application/reconcile.go:109-122 | after the space loop no live space has expired |
| `Agreement.PublicizedAgrees` | internal/application/reconcile.go:68 | whatever the proxy answers to a list of routes of live links, every owned route it leaves belongs to a live record |
| `Agreement.StaleCopyDropsIdentity` | internal/application/service.go:775-806 | overwriting a record with a copy made before its start keeps every process named if and only if no process of the link is running |
| `Agreement.StaleCopyLosesAProcess` | internal/application/service.go:775-806 | a concrete record and process for which it does not |
| `Agreement.Overwritten` | internal/application/service.go:775-806 | replanning from such a copy breaks the agreement if and only if the save was not lost, changed the record, and a process of the link is running |
| `Repair.RoutesPublished` | internal/application/reconcile.go:30-68 | the published routes are exactly those of the live, Active, unexpired links with identity and port that were seen alive and passed their probe |
| `Repair.RowsSettled` | internal/application/reconcile.go:30-68 | every other candidate is archived with route, process and reservation gone; all other records are untouched |
| `Repair.FitIsAdmissible` | internal/adapters/outbound/caddy/caddy.go:257-266 | the desired list is never refused as invalid or duplicate |
| `Repair.VettedKeep` | internal/application/reconcile.go:67 | invariant of the loop for a link that is kept |
| `Repair.VettedDrop` | internal/application/reconcile.go:33-66 | invariant of the loop for a link that is archived |
| `Repair.HostIsNotBlank` | internal/domain/network.go:30-35 | a composed hostname is never blank |
| `Lifecycle.Service.Archive` | internal/application/service.go:659 | one record is archived or nothing happens; with no process of the link running the worlds agree afterwards if and only if it was not archived with its route published |
| `Lifecycle.Service.RunCompensation` | internal/application/compensation/compensation.go:14-24 | all three steps are attempted in order, once each; the answer is nil exactly when all succeeded |
| `Lifecycle.Service.FailStart` | internal/application/service.go:427-454 | a wrapped cause means process, port and route gone and a Failed record without identity and port; anything less is Internal |
| `Lifecycle.Service.Start` | internal/application/service.go:339-395 | the same, or NotFound with nothing touched outside when the link has expired; with no process of the link running the worlds agree afterwards if and only if the expired link was not archived with its route published |
| `Lifecycle.Concludes` | internal/application/service.go:339-395 | the stages compose to the all-or-nothing outcome |
| `Lifecycle.RenewedFrom` | internal/application/service.go:661-690 | removing the old process and starting again compose |
| `Lifecycle.Service.Authenticate` | internal/application/service.go:156-168 | the live unexpired space of a verified caller |
| `Lifecycle.Service.LinkAuth` | internal/application/service.go:601-623 | the link, or the space when only the name is unknown |
| `Lifecycle.Service.LookUp` | internal/application/service.go:572-591 | a name archived before is answered nil without touching anything |
| `Lifecycle.Service.DeleteLink` | internal/application/service.go:572-600 | nil means no live link has the name and an archived one does; asking again for an archived name is nil with no effect on any port |
| `Lifecycle.Service.DestroyForRestart` | internal/application/service.go:691-700 | nil means route, process and port gone with the record untouched |
| `Lifecycle.NewLink` | internal/application/service.go:313-317 | a new link never outlives its space, nor the longest time to live |
| `Lifecycle.Service.CreateSpace` | internal/application/service.go:75-111 | a new space lives between the shortest and the longest time to live |
| `Lifecycle.Service.CreateLink` | internal/application/service.go:267-327 | nil and startup failure as for start; a taken name, archived ones included, is refused before anything is started |
| `Lifecycle.Service.DeleteSpace` | internal/application/service.go:214-249 | nil means the space and all its links archived with nothing of them left outside |
| `Lifecycle.Service.DestroyAll` | internal/application/reconcile.go:100-104 | exactly the batch is archived, or the sweep stops at the first failure with the worlds agreeing |
| `Lifecycle.Service.SweepSpace` | internal/application/reconcile.go:109-119 | an expired space is archived without any link being found in it |
| `Lifecycle.Service.Cleanup` | internal/application/reconcile.go:94-124 | nil means no live link or space is expired at its reading of the clock, exactly the expired links were archived with nothing left, and the second sweep found none |
| `Lifecycle.Service.Inspect` | internal/application/reconcile.go:40-56 | alive and healthy means both were asked in this run |
| `Lifecycle.Service.Judge` | internal/application/reconcile.go:33-67 | a fit candidate gets its route; a link is only given up as Expired when its space could not be read: the space-expired test never fires |
| `Lifecycle.Service.Vet` | internal/application/reconcile.go:30-67 | a candidate is kept untouched or archived with nothing left |
| `Lifecycle.Service.VetAll` | internal/application/reconcile.go:30-68 | the routes of exactly the fit candidates |
| `Lifecycle.Service.SetTimer` | internal/application/service.go:731-743 | the plan is on record; the pending timer is cancelled exactly when the save was acknowledged and a caller asked for it, whether or not the new one can be armed |
| `Lifecycle.Service.ScheduleAutomaticRestart` | internal/application/service.go:702-744 | the plan is the backoff after now and strictly before the expiry; nobody else's plan moves; whenever the save was acknowledged the pending timer is cancelled, even if the new one cannot be armed |
| `Lifecycle.Service.ScheduleLink` | internal/application/service.go:712-743 | a restart that would come too late is counted and ends the link; its record, archived or not, carries the new count |
| `Lifecycle.Service.Crash` | internal/application/service.go:700-703 | a process exits by itself: its route and its record stay, and the worlds still agree |
| `Lifecycle.Service.StartAgain` | internal/application/service.go:775-781 | with no process of the link running, the worlds agree afterwards if and only if the record was not archived with its route published and not overwritten with a stale copy over a running process |
| `Lifecycle.Service.Retry` | internal/application/service.go:767-782 | the same from the record that still names the exited process; if one is still running the agreement is lost unless a save was |
| `Lifecycle.Service.Rescue` | internal/application/service.go:776-781 | after a failed start that left the worlds in agreement, they agree if and only if it did not happen that the record could not be reread, a process of the link is running, and the older copy was saved over the record |
| `Lifecycle.Service.RescheduleFailed` | internal/application/service.go:783-808 | a failed restart is planned again, given up as too late, or left |
| `Lifecycle.Service.RunScheduledRestart` | internal/application/service.go:757-782 | plans change only for the due link; the worlds agree afterwards if and only if it did not lapse: go off while a process of the link was running, find the link expired and archive it with its route published, or save a stale copy over a running process; each lapse is what the states before, between and after it say |
| `Lifecycle.Service.CrashThenRestart` | internal/application/service.go:700-782 | the process of a link exits and its restart goes off: the worlds agree afterwards if and only if it did not lapse; it can lapse only by an expiry, if the link has a route, or by a database that fails |
| `Lifecycle.Service.AnyStep` | internal/application/service.go:214-815 | one operation with any arguments or one exit: the worlds still agree unless a restart lapsed; plans move only by a timer that was due or by a request to schedule |
| `Lifecycle.Service.AnyRun` | internal/application/service.go:214-815 | whole runs of any operations with any failures, processes exiting by themselves in between: the gate is kept, rows only evolve, and until a restart lapses every owned route belongs to a live record unless a Reconcile of a fragile array has failed, and, unless a save was lost, every running process is named by one; the first restart that lapses found the worlds in agreement and left them without |
| `Lifecycle.Service.Install` | internal/composition/command.go:121-123 | the invariants hold at the start, the array holding the fallback alone |
| `HealthGate.StartedMeaning` | internal/application/service.go:345-384 | what the monitor remembers of the latest start is what the calls made so far say |
| `HealthGate.PreparedMeaning` | internal/application/service.go:347-357 | the same for the port on record, its release and the withdrawal of the route |
| `HealthGate.NothingStartsUnrecorded` | internal/application/service.go:347-358 | in every trace each Start is preceded by an acknowledged save of its port, the latest of that link, and then by giving the port back |
| `HealthGate.NothingUnhealthyIsPublished` | internal/application/service.go:345-384 | in every trace each Add of a link is preceded, in this order, by the acknowledged save of its port and health check, its latest Start on that port, an acknowledged save of the identity, a successful CheckUntil of the address got by filling that port into that health check, and an acknowledged save as Healthy, with no Start or Stop of the link after that Start; the route that is added leads to that port |
| `HealthGate.PublishedPortWasProbedIff` | internal/application/service.go:369-384 | the address of that probe is that of the port the route leads to and of no other if and only if the record of that Start still held the placeholder |
| `HealthGate.WithdrawnBeforeStopped` | internal/application/compensation/compensation.go:14-24 | in every trace each Stop is preceded by a route removal attempt for the same link with no Add of it between |
| `Lifecycle.Service.Record` | internal/adapters/outbound/libsql/store.go:372-382 | one record is replaced or the save counted lost; if everything but this record agreed, everything agrees afterwards either way |
| `Lifecycle.Service.Compensate` | internal/application/service.go:624-640 | nil means exactly this link's route, process and port were taken away; the route removal is attempted in any case; no other link is touched |
| `Lifecycle.Service.Destroy` | internal/application/service.go:641-660 | nil means archived with route, process, port and timer gone; a failed cleanup leaves the record with its identity and port; a failed save or archival comes after a complete cleanup |
| `Lifecycle.Service.Activate` | internal/application/service.go:384-394 | from a published link: Active and serving, or everything taken away and a Failed record, or Internal |
| `Lifecycle.Service.Publish` | internal/application/service.go:380-394 | the same from a link on record as Healthy, even for an Add that errors after taking effect |
| `Lifecycle.Service.Promote` | internal/application/service.go:375-394 | the same from a link that has passed its probe |
| `Lifecycle.Service.Probe` | internal/application/service.go:369-394 | the same from a running process whose identity is on record |
| `Lifecycle.Service.Check` | internal/application/service.go:370-374 | nil means the probe of the recorded health check filled in with this start's port succeeded and the link has not expired since |
| `Lifecycle.Service.Raise` | internal/application/service.go:363-394 | the same from a process just started, the probe URL being filled in with this start's port |
| `Lifecycle.Service.Spawn` | internal/application/service.go:359-362 | a fresh identity running for the link, or nothing |
| `Lifecycle.Service.Launch` | internal/application/service.go:358-394 | a fresh process serving, or processes as before, no route and a Failed record, or Internal |
| `Lifecycle.Service.HandOver` | internal/application/service.go:353-394 | the same from a port on record, which is reserved no longer |
| `Lifecycle.Service.Prepare` | internal/application/service.go:347-394 | the same from a port just reserved |
| `Lifecycle.Service.StartInTime` | internal/application/service.go:345-394 | all or nothing for every point of failure: a serving Active record with a fresh process and route, or processes and reservations as before, no route and a Failed record |
| `Lifecycle.Service.Restart` | internal/application/service.go:661-690 | an expired link is destroyed and NotFound; otherwise a start of the same link with its old process, route and port taken away |
| `Lifecycle.Service.RestartLink` | internal/application/service.go:661-690 | nil means the old process is gone and the same link serves from a fresh one; a startup failure leaves neither |
| `Lifecycle.Service.Reconcile` | internal/application/reconcile.go:11-69 | nil means the owned routes are exactly those of the fit links and every other candidate is archived with its cleanup completed; an array that an earlier rollback has broken is put right exactly when it was not stuck; even an unrestored array shows only live links; success leaves no route of an archived link, wherever it came from |
| `Lifecycle.Service.CreateThenRestart` | internal/application/service.go:369-377 | if a link is created and then restarted without an error, what vouches for the second start is a probe of the first port's address, which is not the second port's if the health check names the port and the ports differ |
| `Lifecycle.Revouched` | internal/application/service.go:369-377 | the same from the contracts of start and restart |
| `Lifecycle.Service.TearDown` | internal/application/reconcile.go:81-86 | the route removal of every link is attempted whatever fails; nil means all of them archived with nothing left |
| `Lifecycle.Service.Shutdown` | internal/application/reconcile.go:71-92 | unless the candidates cannot be listed each is attempted and then the empty list is sent, whatever fails; nil means all archived with nothing left and no owned route, even on an array that was broken |
| `RestartBackoff.Backoff` | internal/application/service.go:719-722 | between a second and a minute |
| `RestartBackoff.ChainGrows` | internal/application/service.go:757-806 | each plan made after the previous one was due extends the chain |
| `RestartBackoff.TimeLeftDecreases` | internal/application/service.go:723-727 | the time left is a termination measure |
| `RestartBackoff.TotalDelayIs` | internal/application/service.go:718-722 | 1, 2, 4, 8, 16 and 32 seconds, then a minute each |
| `RestartBackoff.ChainBound` | internal/domain/time.go:11 | under the longest time to live one failing chain plans at most 724 restarts |
| `RestartBackoff.ChainFits` | internal/application/service.go:723-727 | a chain of n restarts exists if and only if the n delays fit before the expiry; 724 do |
| `RestartBackoff.ChainKept` | internal/application/service.go:757-806 | a timer that goes off leaves its chain, extends it, or ends it as too late |
| `RestartBackoff.ChainMoves` | internal/application/service.go:718-738 | any attempt to plan leaves the chain, extends it, or counts a restart that would have come too late or that was planned while the last one was pending |
| `RestartBackoff.ChainSteps` | internal/application/service.go:718-738 | and only a request can do the last of these |
| `Lifecycle.Service.ChainTimer` | internal/application/service.go:757-806 | one timer of the coordinator does that to the chain of its link |
| `Lifecycle.Service.FailingChain` | internal/application/service.go:702-806 | among any other operations, from restart count 0 and within the longest time to live, the chain holds every plan recorded for the link, at most 724; the restart counter is its length, one more once it is over; it is over only if the next restart would have come too late or a request planned one while the last was pending |
| `Lifecycle.Service.LifeOfALink` | internal/application/service.go:267-327 | the same for every link from its creation on |
| `LogRing.RetainedUnique` | internal/adapters/outbound/logs/store.go:93-100 | the longest suffix that fits is unique |
| `LogRing.RoomMade` | internal/adapters/outbound/logs/store.go:93-97 | when the eviction loop ends the ring is the longest suffix of the history that leaves room for the record |
| `LogRing.Push` | internal/adapters/outbound/logs/store.go:93-100 | after eviction and append the ring is the longest fitting suffix of the longer history |
| `LogStore.LinkLog.Evict` | internal/adapters/outbound/logs/store.go:94-97 | the loop stops at the longest suffix that leaves room |
| `LogStore.LinkLog.Append` | internal/adapters/outbound/logs/store.go:71-112 | records no larger than the ring join the history; every line is offered to every registered follower; a closed log changes nothing |
| `LogStore.LinkLog.Keep` | internal/adapters/outbound/logs/store.go:93-100 | a record that fits joins the history and the ring stays its longest fitting suffix |
| `LogStore.LinkLog.Tail` | internal/adapters/outbound/logs/store.go:113-132 | the last min(max(n, 0), k) of the k retained records in order |
| `LogStore.LinkLog.Follow` | internal/adapters/outbound/logs/store.go:134-160 | registered exactly when the log is open |
| `LogStore.LinkLog.Remove` | internal/adapters/outbound/logs/store.go:175-185 | removed and its done channel closed once, however often it is called |
| `LogStore.LinkLog.Close` | internal/adapters/outbound/logs/store.go:187-202 | every follower is released exactly once |
| `LogStore.LinkLog.Take` | internal/adapters/outbound/logs/store.go:163-165 | the worker takes the oldest line |
| `LogStore.LinkLog.Pass` | internal/adapters/outbound/logs/store.go:166-169 | the bytes that go through are the next ones of the line being written, as long as the pipe is open |
| `LogStore.LinkLog.Write` | internal/adapters/outbound/logs/store.go:166-169 | a write returns nil exactly when the whole line went through, and returning changes nothing of what the pipe received |
| `LogStore.LinkLog.AnyInterleaving` | internal/adapters/outbound/logs/store.go:71-202 | over any interleaving the ring refines the history; each pipe has received, in order, lines broadcast since its follower registered, only the last of them possibly cut short, and nothing once closed; a follower whose queue was never full was given every line |
| `LogFollowers.BroadcastOK` | internal/adapters/outbound/logs/store.go:105-110 | a full queue loses the line and nothing else |
| `LogFollowers.ReleaseOK` | internal/adapters/outbound/logs/store.go:175-202 | a follower is registered exactly while its done channel is unclosed |
| `LogFollowers.PipeReceives` | internal/adapters/outbound/logs/store.go:161-173 | what a pipe has received are the bytes of an in-order subsequence of the lines broadcast since registration, of which only the last may be cut short |
| `LogFollowers.PassedOK` | internal/adapters/outbound/logs/store.go:166-169 | bytes that pass extend what was received by the next ones of the line in hand |
| `LogFollowers.WroteOK` | internal/adapters/outbound/logs/store.go:166-169 | a write that returns changes nothing of what was received and completes a line exactly when all of it went through |
| `LogFollowers.KeepingUpLosesNothing` | internal/adapters/outbound/logs/store.go:103-110 | a registered follower was given every line broadcast since it registered if and only if no offer found its queue full; otherwise exactly as many are missing as found it full |
| `DrainGate.StepKeepsSane` | internal/adapters/inbound/httpapi/httpapi.go:68-98 | every atomic step keeps the invariant |
| `DrainGate.DrainedChannel` | internal/adapters/inbound/httpapi/httpapi.go:79-98 | over all interleavings work in flight while draining is exactly an open channel, at most one is ever made, and it is closed at most once |
| `DrainGate.DrainedForGood` | internal/adapters/inbound/httpapi/httpapi.go:68-98 | once any Drain returned nil admission stays closed, no mutation is ever in flight again, and at no instant is the server ready and not draining |
| `DrainGate.CheckAnswers` | internal/adapters/inbound/httpapi/httpapi.go:69-74 | a readiness check answers what draining was at its first step and ready is at its second |
| `DrainGate.LaterChecksSayNo` | internal/adapters/inbound/httpapi/httpapi.go:69-84 | no check that begins after admission was closed answers that the server is ready |
| `DrainGate.LateYesIff` | internal/adapters/inbound/httpapi/httpapi.go:69-86 | after a nil Drain a check in progress can still answer that the server is ready if and only if it looked at draining before admission was closed |
| `DrainGate.ReadyAfterDrain` | internal/adapters/inbound/httpapi/httpapi.go:68-86 | a run of four steps in which one does |
| `DrainGate.NobodyIsStranded` | internal/adapters/inbound/httpapi/httpapi.go:207-226 | a waiting drainer can return nil if and only if no mutation is in flight |
| `DrainGate.NoAdmissionWhileDraining` | internal/adapters/inbound/httpapi/httpapi.go:207-215 | while draining nobody is admitted |
| `DrainGate.API.Admit` | internal/adapters/inbound/httpapi/httpapi.go:207-215 | refused exactly while draining |
| `DrainGate.API.Return` | internal/adapters/inbound/httpapi/httpapi.go:216-224 | the last one out closes the channel |
| `DrainGate.API.CloseAdmission` | internal/adapters/inbound/httpapi/httpapi.go:81-90 | done at once, or the channel to wait on |
| `DrainGate.API.Await` | internal/adapters/inbound/httpapi/httpapi.go:91-97 | nil only with no mutation in flight |
| `DrainGate.API.LookAtDraining` | internal/adapters/inbound/httpapi/httpapi.go:70-72 | the first half of a check remembers what it saw under the lock |
| `DrainGate.API.Answer` | internal/adapters/inbound/httpapi/httpapi.go:73 | the second half answers from that and the value of ready now |
| `DrainGate.API.IsReady` | internal/adapters/inbound/httpapi/httpapi.go:69-74 | a check that nothing interrupts never says yes after a completed Drain |

## Left out

- Caddy itself: PUT replaces, POST inserts and DELETE removes at an index, which is what the client assumes.
- Request retries: one attempt per request, the default (internal/adapters/outbound/caddy/caddy.go:108-111); with retries a POST could insert twice.
- Other writers of the route array while a client call runs.
- HTTP transport, JSON text and the exact wrapping of error messages; errors are kept apart by kind.
- Network parsing of upstreams: "is a loopback host:port" is a parameter of the model; the coordinator assumes it accepts 127.0.0.1 with a valid port.
- SQL text, migrations, lock retries and the ORDER BY of the queries; a query returns its rows in any order.
- Durations of probes and stop graces: how long a port call takes is the clock's business.
- Real processes, signals, sockets, probes and the Caddy child process: port contracts that may fail in every way.
- A process that exits by itself while an operation runs: it is counted as running until that operation has returned, so what an operation says of its own process holds of a process that has not crashed meanwhile.
- Parsing of aliases, names and health checks, tokens and their hashes: verdicts passed in by the caller. An alias generated for a new space is passed in too.
- Creating and archiving records are not events of the trace; saves are.
- The advertised URL: its computation may fail at random, as a failure there must be undone like any other.
- Recent-log attachments of failed starts, and audit records beyond their possible failure.
- Checks for ports that were never wired; the composition wires all of them.
- Redaction and the JSON encoding of log entries are parameters; the map from link ids to logs is left out because logs of different links share nothing.
- Injectivity of hostnames: joining name and alias with a hyphen is ambiguous.
- Expired links at Shutdown: it only lists unexpired ones.
- Link.Transition: the service writes Status directly.
- HTTP routing, cookies, dashboard, command line and configuration.
- Agreement.Agree: claims nothing about routes while the array is broken, because the code does not keep them owned there (`CaddyRuns.RemovalLeavesTheCopy`).
- Lifecycle.Service.FailingChain: bounds one chain; a request that plans a restart while one is pending begins another, because it does not wait for the pending one.
- Lifecycle.Service.RunScheduledRestart: if a process of the link was running and a save was lost as well, claims nothing of the agreement afterwards.
