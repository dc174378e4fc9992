# A verified model of the application authority, the compatibility gate and the ledger reader

Four parts of the system are modelled and proved here.

**The application authority** (`crates/nlos-application`) keeps packages' lifecycle in durable tables: install, update,
disable, uninstall, rollback, surface registration, and the staged migration drill (begin, steps, health verdict,
activation, package rollback). Every command is a ladder of checks inside one transaction. `Commands` states each ladder
as a function from the tables to a decision: commit one change, replay a recorded fact, or refuse. `Authority` is the
object that owns the tables and updates them in place: each transaction does exactly what its ladder decides, and each
call keeps the class invariant and has the effect `Effects` states for it in terms a caller can use. `Outcomes` says of
every call, in terms of the request and the tables alone, exactly when it is carried out, exactly when it is answered from
the record, and that a refusal is always true (`Admissions` and `DrillAdmissions` have the single conditions). `Runs` puts
commands into whole runs, next to the append-only store of verified packages. The rest is about runs: invariants of every
reachable world, what no run can undo, isolation of drills, activation as a refinement of update, exactly which drills can
still end, exactly-once answers under redelivery, provenance and version lineage through any number of rollbacks.

**The compatibility gate** (`tools/sabi-compat-diff`) compares a deprecation manifest, and optionally the wire schemas,
with the release before. `Manifests` states the rules, `ManifestDiff` and `Schemas` are the loops that report findings,
proved to report something breaking exactly when a rule fails. `Acceptance` and `Retirement` say what acceptance means for
channels, entries and field numbers themselves. With `ManifestChains` and `Schemas` they prove what holds along any chain of
accepted releases: one holder per wire slot forever, identities and versions that never go back, tombstones that only grow,
promises that are kept, and the exact earliest epoch at which an entry can be retired.

**The ledger reader and writer** (`scripts/lint_claims.py`, `tools/verify_stage_e_ledger_coverage.py`) parse a canonical
YAML subset and print records in it. `CanonicalYaml` is the grammar as mutually recursive functions over the remaining
lines, with the remaining characters as measure; `YamlReader` is the index-driven reader, proved equal to it; `Grammar` is
a grammar of layouts that says nothing about reading, and the reader accepts exactly its texts. `PrintParse` proves
print-then-parse, `YamlAppend` that appending texts appends lists, `Backfill` and `Registrations` that appending the
generated block completes the ledger with what the catalogue says, `RequiredLists` when that can claim something twice.

**Namespaces** (`crates/nlos-capability`): zero-padded paths, their containment as a partial order, and narrowing.

## What is assumed

- Identifiers derived by hashing are injective in what they hash; `ApplicationId` and `InstallationId` are those inputs.
- The artifact authority never replaces a verified package: the store only grows. It refuses a package without entries and
  one whose version, entry count or time does not fit its column (`crates/nlos-artifact/src/package.rs:658-661`,
  `crates/nlos-artifact/src/schema.rs:212`), and so does the model's publish step.
- A transaction that fails in storage changes nothing, so storage failures are not steps of a run.
- Clocks, the health probe and the query for running work are parameters of the commands.
- Tables hold what this schema version allows: signed 64-bit columns, the uniqueness indexes on keys, on
  (application, generation) and on a live drill, and the `CHECK` and trigger constraints are part of the ladders.

## Where the code and a natural promise differ

- A drill with all steps done, a passed verdict and an untouched baseline can still be impossible to end: activation files
  its receipt under the drill's own key, which another install, update or rollback may have used before
  (`UntouchedPassedDrillMayNeverEnd`). `DrillCanEndExactlyWhen` is the exact condition over all continuations, for every
  live drill, `ActivationCommitsIff` that of one activation.
- "Done exactly when the passed drill has its receipt at baseline + 1 with the target digest" fails when an update to the
  drill's target is issued under the drill's key (`ReceiptWithoutActivation`). It holds exactly when no lifecycle request of
  the run made that very filing under the key of the passed drill (`DoneMeansOwnReceiptExactlyWhen`).
- The seventh equation of the forward-roll binding is not implied by the other guards: receipts of one application need not
  be dated in the order of their generations (`BindingCanRefuse`). `RollbackDecidesByTime` is the exact condition.
- The grace window before a sunset need not contain two epochs: the deprecation epoch may be backdated, and an entry can be
  active, deprecated and sunset within one epoch (`BackdatedGraceCanBeEmpty`). Two epochs are bound to elapse, over all
  chains of releases, exactly when the promised epoch lies two past the release that makes the promise
  (`GraceIsRealExactlyWhen`).
- The gate checks separately that a new entry does not take the wire slot of a sunset one. That check never decides
  anything: the slot is still held, or its number is a tombstone (`AcceptedExactlyWhen`).
- The reader's message about tab indentation is unreachable: only blanks are counted as indentation
  (`IndentationHasNoTab`), tabs end it and vanish (`TabsVanish`, `TextReadsWithoutTabs`), and a line indented by a tab is
  read as a flush line (`TabIndentedLineIsFlush`).
- Versions round-trip exactly when minor and patch fit their 16 bits (`PackRoundTripsIff`). That is not the condition under
  which the windows mean equal fields: a large minor changes the major (`OverflowingMinorChangesMajor`), while 1.1.65536
  loses its patch and the windows still mean its fields (`OverflowingPatchMayBeHarmless`).
  `WindowsMeanFieldsExactlyWhen` is the exact condition.
- Appending the generated claims introduces a duplicate exactly when the required list repeats a missing identifier
  (`NoNewDuplicatesExactlyWhen`). The list is joined from two lists whose shapes overlap, so for some catalogues that
  happens: exactly for those with an identifier of both shapes (`CanDoubleExactlyWhen`). The tool's own catalogue has none
  (`CatalogueIsSafe`); with it a work package such as E-X-001 stops the generation instead (`ListedTwiceStops`).

## Model

| member | source | states |
|---|---|---|
| `Versions.PackedFields` | crates/nlos-application/src/lib.rs:316-321 | What the three fields of a packed version are for any inputs, overflow included |
| `Versions.PackRoundTripsIff` | crates/nlos-application/src/lib.rs:316-321 | Pack then unpack is the identity if and only if minor and patch fit in 16 bits |
| `Versions.WindowsMeanFieldsExactlyWhen` | crates/nlos-application/src/lib.rs:345-374 | For any fields: the windows mean equal fields against every well-packed version if and only if the minor fits and the patch bits beyond 16 are already set in the minor and major they spill into |
| `Versions.WindowsMeanFieldsForWords` | crates/nlos-application/src/lib.rs:319-321 | The same for a 32-bit patch, as the fields are typed: the minor fits and absorbs the overflow of the patch |
| `Versions.OverflowingPatchMayBeHarmless` | crates/nlos-application/src/lib.rs:345-374 | 1.1.65536 does not round-trip and the windows still mean its fields |
| `Versions.OverflowingMinorChangesMajor` | crates/nlos-application/src/lib.rs:345-374 | 1.65536.0 and 1.131072.0: the same-major window does not compare the given majors |
| `Versions.AdmittedKeepsMajor` | crates/nlos-application/src/lib.rs:345-374 | Whatever a window admits has the packed major of the current version |
| `Surfaces.AdmittedIffWellFormed` | crates/nlos-application/src/surfaces.rs:142-167 | A segment is admitted if and only if it is non-empty, within bounds, has distinct ids and valid texts |
| `Surfaces.ValidateSurfaceDeclarations` | crates/nlos-application/src/surfaces.rs:142-167 | The loop returns the first violation in declaration order, or none |
| `Surfaces.KindRoundTrip` | crates/nlos-application/src/surfaces.rs:57-67 | Kind codes decode to what was encoded and nothing else decodes |
| `Preservation.NextIsSuccessor` | crates/nlos-application/src/lib.rs:3017-3041 | On a dense history the next generation is the row generation plus one, although it is computed from a maximum |
| `Authority.ApplicationAuthority.constructor` | crates/nlos-application/src/lib.rs:1311-1405 | A fresh authority has empty tables and satisfies every durable invariant |
| `Authority.ApplicationAuthority.Put` | crates/nlos-application/src/lib.rs:1437-1514 | Row, receipt and uniqueness index move together |
| `Authority.ApplicationAuthority.Install` | crates/nlos-application/src/lib.rs:1406-1517 | Keeps the class invariant; refused or replayed leaves the tables alone; accepted moves only the package’s row one generation up onto a receipt of the verified content; reply and tables are what the ladder decides |
| `Authority.ApplicationAuthority.Update` | crates/nlos-application/src/lib.rs:1666-1788 | Keeps the class invariant; the same, from an installed row, to a different digest the window admits; reply and tables are what the ladder decides |
| `Authority.ApplicationAuthority.Disable` | crates/nlos-application/src/lib.rs:1553-1624 | Keeps the class invariant; an accepted disable marks only the package’s installed row and files one receipt at its generation; reply and tables are what the ladder decides |
| `Authority.ApplicationAuthority.Uninstall` | crates/nlos-application/src/lib.rs:1878-1959 | Keeps the class invariant; the same for uninstall, and only when the activity gate is open; reply and tables are what the ladder decides |
| `Authority.ApplicationAuthority.Rollback` | crates/nlos-application/src/lib.rs:2067-2214 | Keeps the class invariant; an accepted rollback moves only the package’s row onto the content one generation back; reply and tables are what the ladder decides |
| `Authority.ApplicationAuthority.Register` | crates/nlos-application/src/lib.rs:2473-2559 | Keeps the class invariant; an accepted segment adds exactly its rows, with the installed digest and ids not yet registered; reply and tables are what the ladder decides |
| `Authority.ApplicationAuthority.Migrate` | crates/nlos-application/src/migration.rs:401-499 | Keeps the class invariant; an accepted begin adds exactly one drill frozen on the row and the verified target, when no drill of the application is live; reply and tables are what the ladder decides |
| `Authority.ApplicationAuthority.RecordStep` | crates/nlos-application/src/migration.rs:514-597 | Keeps the class invariant; an accepted step is the next one and moves only its drill; reply and tables are what the ladder decides |
| `Authority.ApplicationAuthority.CheckHealth` | crates/nlos-application/src/migration.rs:615-718 | Keeps the class invariant; an accepted verdict is recorded once, after all steps, and moves only its drill; reply and tables are what the ladder decides |
| `Authority.ApplicationAuthority.Activate` | crates/nlos-application/src/migration.rs:741-922 | Keeps the class invariant; an accepted activation ends only its drill and moves only its package’s row onto the target; reply and tables are what the ladder decides |
| `Authority.ApplicationAuthority.RollBackDrill` | crates/nlos-application/src/migration.rs:940-1048 | Keeps the class invariant; an accepted package rollback ends only its drill and keeps every row; reply and tables are what the ladder decides |
| `Authority.ApplicationAuthority.Handle` | crates/nlos-application/src/lib.rs:1406-2559 | Any call keeps the class invariant, takes the step of the run model, leaves the tables alone when it refuses, and alters no recorded receipt |
| `Authority.ApplicationAuthority.ValidMeansInv` | crates/nlos-application/src/lib.rs:1406-2559 | The class invariant, being reachable by calls, implies every durable invariant |
| `Authority.ApplicationAuthority.Serve` | crates/nlos-application/src/lib.rs:1311-2559 | Any sequence of calls on a valid authority leaves the world its run describes and keeps every invariant |
| `Effects.InstallHasEffect` | crates/nlos-application/src/lib.rs:1406-1517 | What an answer to an install says, what moved and that nothing else did, for refusal, replay and commit |
| `Effects.UpdateHasEffect` | crates/nlos-application/src/lib.rs:1666-1788 | The same for update |
| `Effects.DisableHasEffect` | crates/nlos-application/src/lib.rs:1553-1624 | The same for disable |
| `Effects.UninstallHasEffect` | crates/nlos-application/src/lib.rs:1878-1959 | The same for uninstall |
| `Effects.RollbackHasEffect` | crates/nlos-application/src/lib.rs:2067-2214 | The same for rollback |
| `Effects.RegisterHasEffect` | crates/nlos-application/src/lib.rs:2473-2559 | The same for surface registration |
| `Effects.MigrateHasEffect` | crates/nlos-application/src/migration.rs:401-499 | The same for beginning a drill |
| `Effects.StepHasEffect` | crates/nlos-application/src/migration.rs:514-597 | The same for a drill step |
| `Effects.HealthHasEffect` | crates/nlos-application/src/migration.rs:615-718 | The same for the health verdict |
| `Effects.ActivateHasEffect` | crates/nlos-application/src/migration.rs:741-922 | The same for activation |
| `Effects.AbandonHasEffect` | crates/nlos-application/src/migration.rs:940-1048 | The same for abandoning a drill |
| `Surfaces.NoViolationFrom` | crates/nlos-application/src/surfaces.rs:142-167 | No first violation from an index on means no violation at any later index |
| `Reachability.CommitIsGrounded` | crates/nlos-application/src/lib.rs:1406-2559 | Whatever any ladder commits rests on the stated grounds: fresh key, next generation, status, frozen baseline |
| `Reachability.CommandKeepsInv` | crates/nlos-application/src/lib.rs:1406-2559 | Every command, committed or refused, keeps the whole durable invariant |
| `Reachability.RunKeepsInv` | crates/nlos-application/src/lib.rs:1406-2559 | Every run keeps it |
| `Reachability.ReachableWorldsAreInvariant` | crates/nlos-application/src/migration.rs:401-1048 | It holds in every world reachable from the empty one |
| `Durability.RunExtends` | crates/nlos-application/src/lib.rs:1437-1514 | No run alters or removes a recorded receipt, lowers a generation, or un-ends a drill |
| `LifecycleTheorems.EveryGenerationRecordedOnce` | crates/nlos-application/src/lib.rs:3017-3041 | In every reachable world each application has exactly one receipt at every generation up to its current one, none beyond, and the row shows the last digest |
| `LifecycleTheorems.EveryReceiptIsVerified` | crates/nlos-application/src/lib.rs:2733-2776 | Every receipt, however many rollbacks deep, agrees on all content fields with a verified package and is not dated before its verification |
| `LifecycleTheorems.StatusMatchesReceipts` | crates/nlos-application/src/lib.rs:1903-1956 | Installed, disabled and uninstalled rows correspond exactly to the disable and uninstall receipts at the current generation |
| `LifecycleTheorems.RollbacksRestorePreviousContent` | crates/nlos-application/src/lib.rs:2177-2211 | Every rollback receipt is justified by a disable or uninstall at its origin and restores the content one generation before |
| `LifecycleTheorems.SurfacesFollowInstalledContent` | crates/nlos-application/src/lib.rs:2508-2556 | Every registered surface carries the digest installed at its generation, and surface ids are unique per application and generation across all calls |
| `LifecycleTheorems.LifecycleFindsNoCorruption` | crates/nlos-application/src/lib.rs:2733-2827 | In no reachable world does a lifecycle or registration command meet a lost binding, a missing row, a taken key or a uniqueness violation |
| `ContentTheorems.RollingAlternates` | crates/nlos-application/src/lib.rs:2118-2150 | Rolling k times shows the original content for even k and the previous one for odd k |
| `ContentTheorems.RollbackHasPeriodTwo` | crates/nlos-application/src/lib.rs:2118-2150 | In any run that only disables, uninstalls and rolls back, the k-th committed rollback lands k generations up with contents alternating |
| `ContentTheorems.LineageKeepsMajor` | crates/nlos-application/src/lib.rs:1728-1740 | Installed once and then advanced by update, activation and rollback only, all generations of a package share one packed major |
| `ContentTheorems.OneInstallOneMajor` | crates/nlos-application/src/lib.rs:1728-1740 | The same for every run from empty tables |
| `Admissions.InstallCommitsExactlyWhen` | crates/nlos-application/src/lib.rs:1406-1517 | An install commits if and only if the package is verified by then, the key is unused, and a row that exists is installed, not created later and has room for a generation |
| `Admissions.UpdateCommitsExactlyWhen` | crates/nlos-application/src/lib.rs:1666-1788 | An update commits if and only if, besides, the package is the one named, its digest differs, and the window admits its version against the receipt at the row’s generation |
| `Admissions.DisableCommitsExactlyWhen` | crates/nlos-application/src/lib.rs:1553-1624 | A disable commits if and only if the key is unused, the row is installed and not updated later, and the time fits |
| `Admissions.UninstallCommitsExactlyWhen` | crates/nlos-application/src/lib.rs:1878-1959 | An uninstall with an unused key of a row not uninstalled and not updated later commits if and only if nothing is outstanding or asked for and the time fits, is refused for running tasks if and only if the count is above 0, and for the query if and only if it failed; the gate comes before the time |
| `Admissions.RegisterCommitsExactlyWhen` | crates/nlos-application/src/lib.rs:2473-2559 | A segment is registered if and only if it is well formed, the key is unused, the row is installed with the declared digest and not updated later, none of its surfaces is registered there, and the time fits |
| `RollbackTheorems.RollbackDecidesByTime` | crates/nlos-application/src/lib.rs:2067-2214 | With an unused key, a disabled or uninstalled row past its first generation and fitting times, a rollback commits if and only if nothing is outstanding or asked for and it is not dated before the installation it restores, which has its own refusal; the gate refuses if and only if tasks run or the query failed; it never finds a corrupt record |
| `RollbackTheorems.BindingCanRefuse` | crates/nlos-application/src/lib.rs:2787-2827 | A reachable world in which that is the refusal |
| `DrillAdmissions.MigrateCommitsExactlyWhen` | crates/nlos-application/src/migration.rs:401-499 | A drill of any positive number of steps begins if and only if its target is verified by then, of the package, different and admitted, the row is installed, no drill of the package is live, the key is unused and the values fit |
| `DrillAdmissions.StepCommitsExactlyWhen` | crates/nlos-application/src/migration.rs:514-597 | A step is recorded if and only if the drill is live, the index is the next one and declared, and the time is not before the last update and fits |
| `DrillAdmissions.HealthCommitsExactlyWhen` | crates/nlos-application/src/migration.rs:615-718 | A verdict, whichever, is recorded if and only if all steps are and none was yet, and the time is not before the last update and fits |
| `DrillAdmissions.AbandonCommitsExactlyWhen` | crates/nlos-application/src/migration.rs:940-1048 | A package rollback commits if and only if the drill runs refuted, its row is installed at the generation it began on, and the time is not before the last update and fits |
| `DrillAdmissions.ActivationCommitsExactlyWhen` | crates/nlos-application/src/migration.rs:741-922 | An activation commits if and only if the drill runs passed, its row is installed at the generation it began on, the key names no receipt, and the time and the next generation fit |
| `Outcomes.CommitsExactlyWhen` | crates/nlos-application/src/lib.rs:1406-2559 | All of these together: in every invariant world a request commits if and only if it is admissible |
| `Outcomes.ReplaysExactlyWhen` | crates/nlos-application/src/lib.rs:1416-1426 | A request is answered from the record if and only if what is recorded under its key was recorded for the same request, field by field |
| `Outcomes.RefusalsAreTrue` | crates/nlos-application/src/lib.rs:1406-2559 | Whatever a refusal says about the request or the tables is so, for every request and every refusal; none means contradictory tables |
| `DrillTheorems.DrillLedger` | crates/nlos-application/src/migration.rs:536-590 | In every reachable world: steps are 1..completed in time order, verdict only with all steps, a failed drill has exactly its rollback receipt, a done one passed and has its own receipt and conversely exactly when no lifecycle request pre-empted it, verification ≤ begin ≤ steps ≤ verdict ≤ end, one live drill per application |
| `DrillTheorems.StaleForever` | crates/nlos-application/src/migration.rs:842-850 | Once the row has left a live drill’s baseline, in no continuation does the drill end |
| `DrillTheorems.MovedBaselineBlocksForever` | crates/nlos-application/src/migration.rs:484-491 | Such a drill blocks every later drill of its application in every continuation |
| `DrillTheorems.DrillIsolation` | crates/nlos-application/src/migration.rs:842-850 | If a drill ends, the application row was the same at every moment between its beginning and its end |
| `DrillTheorems.NoLifecycleCommitDuringDrill` | crates/nlos-application/src/migration.rs:1012-1020 | If a drill ends, no command between beginning and end committed a change to its application |
| `DrillTheorems.ActivationCommitsIff` | crates/nlos-application/src/migration.rs:741-922 | Activation commits if and only if the drill runs with a passed verdict, the row is its baseline, its key names no receipt and the columns fit |
| `DrillTheorems.ShadowedForever` | crates/nlos-application/src/migration.rs:852-903 | A passed drill whose key already names a receipt never ends |
| `DrillTheorems.ActivationRefinesUpdate` | crates/nlos-application/src/migration.rs:741-922 | Whenever activation commits, the one-step update with the same key, receipt, window and time would commit and write the identical row and receipt |
| `DrillTheorems.ActivationFindsNoCorruption` | crates/nlos-application/src/migration.rs:768-810 | In no invariant world does activation find contradictory rows or fire the binding guard |
| `DrillTheorems.ClosingFindsNoCorruption` | crates/nlos-application/src/migration.rs:974-992 | Neither the verdict nor the package rollback meets contradictory rows |
| `DrillReceipts.DoneMeansOwnReceiptExactlyWhen` | crates/nlos-application/src/migration.rs:852-903 | In every run, for every drill: done coincides with passed and having its own receipt (application, baseline + 1, target digest) if and only if the drill did not pass or no install, update or rollback of the run made that very filing under its key |
| `DrillReceipts.AnyReceiptMeansActivationExactlyWhen` | crates/nlos-application/src/migration.rs:852-903 | In every run: done coincides with any receipt under the key if and only if no install, update or rollback committed under it |
| `DrillReceipts.StrayExactlyWhenFiled` | crates/nlos-application/src/migration.rs:852-903 | A receipt under a key that no activation filed, of any given application, generation and digest, exists exactly when a lifecycle request committed it |
| `Witnesses.ReceiptWithoutActivation` | crates/nlos-application/src/migration.rs:852-903 | A reachable world with a passed, unfinished drill whose key names its own receipt at baseline + 1 with the target digest |
| `Witnesses.UntouchedPassedDrillMayNeverEnd` | crates/nlos-application/src/migration.rs:852-903 | A reachable world with a passed drill on an untouched baseline that no continuation can end, its key being taken |
| `Clocks.ReachableHoldsColumns` | crates/nlos-application/src/lib.rs:3416-3427 | In every reachable world the times, generations, step counts, versions and entry counts of rows, drills and receipts fit their columns, and no receipt is of a package without entries |
| `DrillEndings.UnpassedCanEndExactlyWhen` | crates/nlos-application/src/migration.rs:940-1048 | A live drill that is unchecked or refuted ends in some continuation if and only if its row is still its baseline: the remaining steps, a failed verdict and the package rollback all fit their clocks |
| `DrillEndings.PassedCanEndExactlyWhen` | crates/nlos-application/src/migration.rs:741-922 | A live passed drill ends in some continuation if and only if its row is still its baseline, its key names no receipt and the next generation fits its column |
| `DrillEndings.DrillCanEndExactlyWhen` | crates/nlos-application/src/migration.rs:741-1048 | Both together, for every live drill of every reachable world |
| `ExactlyOnce.CommitAnswers` | crates/nlos-application/src/lib.rs:1416-1426 | Every commit records the answer to its own request |
| `ExactlyOnce.AnswerIsGiven` | crates/nlos-application/src/migration.rs:754-767 | A recorded answer is given back and the step changes nothing |
| `ExactlyOnce.RedeliveryReplays` | crates/nlos-application/src/lib.rs:1886-1896 | A committed request redelivered after any further commands, with whatever the activity query or the health probe answers by then, replays its fact and changes nothing; a health check replays while the drill is live and is refused exactly once it has ended |
| `ExactlyOnce.RedeliveriesAreInvisible` | crates/nlos-application/src/lib.rs:2075-2092 | Removing from a run every command whose request committed earlier, oracle answers aside, leaves the final world unchanged |
| `ExactlyOnce.RunsIgnoreRedeliveries` | crates/nlos-application/src/migration.rs:634-646 | The same for every run from empty tables |
| `ManifestDiff.DiffChannel` | tools/sabi-compat-diff/sabi_compat_diff.py:666-814 | One finding of the right class for an acceptable channel, only breaking findings otherwise |
| `ManifestDiff.ValidateEntry` | tools/sabi-compat-diff/sabi_compat_diff.py:495-633 | No finding if and only if the entry is clean against the tombstones in force |
| `ManifestDiff.MissingAttributes` | tools/sabi-compat-diff/sabi_compat_diff.py:559-577 | No finding if and only if every demanded attribute is given |
| `ManifestDiff.DiffEntry` | tools/sabi-compat-diff/sabi_compat_diff.py:845-1093 | One finding of the right class for an acceptable entry, only breaking findings otherwise |
| `ManifestDiff.DiffStates` | tools/sabi-compat-diff/sabi_compat_diff.py:970-1093 | The transition of a present entry is breaking exactly when it is not forward, with its class otherwise |
| `ManifestDiff.CollectTombstones` | tools/sabi-compat-diff/sabi_compat_diff.py:683-713 | The tombstones in force on a channel are those of either release |
| `ManifestDiff.SunsetSlots` | tools/sabi-compat-diff/sabi_compat_diff.py:816-820 | The set of slots held by sunset entries of the earlier release |
| `ManifestDiff.Collisions` | tools/sabi-compat-diff/sabi_compat_diff.py:822-841 | A finding if and only if two entries hold one slot, in whatever order they are met |
| `ManifestDiff.ReportChannels` | tools/sabi-compat-diff/sabi_compat_diff.py:661-814 | The channel walk finds nothing breaking if and only if every channel is acceptable, then has one finding of its class for each, and collects the tombstones in force |
| `ManifestDiff.ReportEntries` | tools/sabi-compat-diff/sabi_compat_diff.py:843-1093 | The entry walk finds nothing breaking if and only if every entry is acceptable, and then has one finding of its class for each |
| `ManifestDiff.ReportMeans` | tools/sabi-compat-diff/sabi_compat_diff.py:121-133 | A report has no breaking finding exactly when every subject is acceptable, and is then one finding per subject |
| `ManifestDiff.DiffManifests` | tools/sabi-compat-diff/sabi_compat_diff.py:636-1101 | The report has no breaking finding if and only if the manifests are compatible, and is then complete |
| `ManifestChains.AcceptedIsWellFormed` | tools/sabi-compat-diff/sabi_compat_diff.py:636-1101 | A release accepted against any release is accepted against itself |
| `ManifestChains.OneHolderForever` | tools/sabi-compat-diff/sabi_compat_diff.py:816-948 | Along any chain a wire slot is held by one and the same symbol, in whichever releases it is looked up |
| `ManifestChains.TombstonesOnlyGrow` | tools/sabi-compat-diff/sabi_compat_diff.py:762-786 | Along any chain reserved numbers and symbols only grow |
| `ManifestChains.RetiredForever` | tools/sabi-compat-diff/sabi_compat_diff.py:1074-1093 | A symbol once sunset or archived is never active or deprecated again |
| `ManifestChains.SunsetFollowsDeprecation` | tools/sabi-compat-diff/sabi_compat_diff.py:981-1004 | From active to sunset there is a deprecated release in between |
| `ManifestChains.PromisesAreKept` | tools/sabi-compat-diff/sabi_compat_diff.py:1005-1073 | A promised epoch is never shortened, and retirement never comes before it |
| `ManifestChains.SunsetsAreHonoured` | tools/sabi-compat-diff/sabi_compat_diff.py:559-631 | The sunset release honours every promise ever made, lies two past every declared deprecation epoch, and two real epochs after a release that was not backdated |
| `ManifestChains.RetirableExactlyWhen` | tools/sabi-compat-diff/sabi_compat_diff.py:598-631 | Over all chains of releases: a deprecated entry can be sunset at an epoch if and only if it has reached both the current one and the promise |
| `ManifestChains.GraceIsRealExactlyWhen` | tools/sabi-compat-diff/sabi_compat_diff.py:578-596 | Two epochs are bound to elapse, whatever releases follow, if and only if the promise lies two past the release making it |
| `ManifestChains.BackdatedGraceCanBeEmpty` | tools/sabi-compat-diff/sabi_compat_diff.py:578-596 | An accepted chain active, deprecated, sunset within one epoch |
| `Acceptance.WellFormedExactlyWhen` | tools/sabi-compat-diff/sabi_compat_diff.py:495-633 | A release is acceptable as its own successor if and only if its channels are frozen, its entries say what their state demands, avoid the reserved lists and hold distinct slots |
| `Acceptance.AcceptedExactlyWhen` | tools/sabi-compat-diff/sabi_compat_diff.py:636-1101 | A release is accepted if and only if it stands by itself and, channel by channel and entry by entry, moves on from the one before: the check for reused sunset slots adds nothing |
| `Acceptance.ChannelsPersist` | tools/sabi-compat-diff/sabi_compat_diff.py:666-760 | Along any chain a channel stays, stays frozen, and its (major, minor) never goes back |
| `Acceptance.EntriesAreTraced` | tools/sabi-compat-diff/sabi_compat_diff.py:951-969 | Along any chain an entry keeps kind, parent, number and introduction epoch; where it is gone, its symbol and number are reserved |
| `Acceptance.LeftForGood` | tools/sabi-compat-diff/sabi_compat_diff.py:849-886 | Along any chain an entry that left never returns |
| `Acceptance.EntryClassesTell` | tools/sabi-compat-diff/sabi_compat_diff.py:970-1093 | An entry of an accepted report is classed retired, announced, added or unchanged exactly when it is |
| `Acceptance.ChannelClassesTell` | tools/sabi-compat-diff/sabi_compat_diff.py:787-814 | A channel of an accepted report is classed unchanged exactly when it is equal, and additive otherwise |
| `Schemas.CheckReuse` | tools/sabi-compat-diff/sabi_compat_diff.py:1299-1309 | A finding if and only if a field uses a reserved number or name |
| `Schemas.CheckDropped` | tools/sabi-compat-diff/sabi_compat_diff.py:1272-1294 | A finding if and only if a reserved number or name was dropped |
| `Schemas.DiffNumber` | tools/sabi-compat-diff/sabi_compat_diff.py:1318-1371 | The verdict on one wire number: kept, added, retired with authorization, or breaking |
| `Schemas.DiffNumbers` | tools/sabi-compat-diff/sabi_compat_diff.py:1311-1371 | The walk over the numbers of a container reports every change |
| `Schemas.DiffContainer` | tools/sabi-compat-diff/sabi_compat_diff.py:1272-1382 | No breaking finding if and only if the container keeps its rules; then every change is reported |
| `Schemas.ReportContainer` | tools/sabi-compat-diff/sabi_compat_diff.py:1243-1268 | The verdict on one container: removed, added, or its own findings |
| `Schemas.DiffSchemas` | tools/sabi-compat-diff/sabi_compat_diff.py:1219-1384 | No breaking finding if and only if every container is kept and keeps its rules; then every added container and every change is reported |
| `Schemas.AuthorizationStays` | tools/sabi-compat-diff/sabi_compat_diff.py:1229-1241 | What a manifest once authorizes, every accepted successor authorizes |
| `Schemas.WireSlotFate` | tools/sabi-compat-diff/sabi_compat_diff.py:1247-1371 | Along any chain a number keeps its type and name until it is buried with authorization; then neither number nor name is used again in that container |
| `Retirement.LastSegmentExactlyWhen` | tools/sabi-compat-diff/sabi_compat_diff.py:1229-1241 | The last segment of a symbol is a name if and only if the name has no dot and the symbol is it or ends in a dot and it |
| `Retirement.AuthorizedExactlyWhen` | tools/sabi-compat-diff/sabi_compat_diff.py:1229-1241 | A manifest authorizes a removal if and only if a sunset entry has the number or the name, or a channel reserves either |
| `Retirement.SchemaAcceptedExactlyWhen` | tools/sabi-compat-diff/sabi_compat_diff.py:1219-1384 | A schema is accepted if and only if no container is lost, no tombstone is lost or used, and each number keeps type and name or is a tombstone that the manifest lets go |
| `Retirement.NumberClassesTell` | tools/sabi-compat-diff/sabi_compat_diff.py:1316-1371 | A number of an accepted container is classed retired, added or unchanged exactly when it is |
| `Retirement.RemovableExactlyWhen` | tools/sabi-compat-diff/sabi_compat_diff.py:1316-1345 | Moving a number to the tombstones is accepted if and only if the manifest lets it go and no other field of the container has its name |
| `Retirement.DeclaredUntilLetGo` | tools/sabi-compat-diff/sabi_compat_diff.py:1311-1371 | Along any chain a number keeps its declaration for as long as no manifest has a sunset entry or a reservation for it |
| `CanonicalYaml.IndentationHasNoTab` | scripts/lint_claims.py:162-164 | The counted indentation holds blanks only |
| `TabIndentation.IndentOfTabs` | scripts/lint_claims.py:156-165 | Whatever follows, tabs end the indentation: it is the number of blanks before them |
| `TabIndentation.TabsVanish` | scripts/lint_claims.py:156-165 | For any rest of the line, the logical line is that of the blanks and the rest without its leading space |
| `TabIndentation.UntabbedHasNoTab` | scripts/lint_claims.py:156-165 | No tab ends the indentation of an untabbed line |
| `TabIndentation.TextReadsWithoutTabs` | scripts/lint_claims.py:156-173 | Every text reads the same with all its lines untabbed |
| `TabIndentation.TabIndentedLineIsFlush` | scripts/lint_claims.py:156-173 | A key on a line indented by tabs is read as a flush key of the mapping before it |
| `YamlReader.ReadQuoted` | scripts/lint_claims.py:71-92 | The unescaping loop computes the grammar’s unquoting, errors included |
| `YamlReader.ReadScalar` | scripts/lint_claims.py:69-95 | The scalar reader computes the grammar’s scalar |
| `YamlReader.ReadBlock` | scripts/lint_claims.py:98-101 | The index returned names exactly the lines the grammar leaves |
| `YamlReader.ReadItem` | scripts/lint_claims.py:109-124 | The same for one dash line, and the index advances |
| `YamlReader.ReadDashMap` | scripts/lint_claims.py:116-121 | Reading a mapping from the merged list consumes the same lines of the original |
| `YamlReader.ReadSeq` | scripts/lint_claims.py:104-127 | The same for a block sequence |
| `YamlReader.ReadValue` | scripts/lint_claims.py:138-147 | The same for the value of one key |
| `YamlReader.ReadMap` | scripts/lint_claims.py:130-153 | The same for a block mapping, duplicate keys refused |
| `YamlReader.ReadLines` | scripts/lint_claims.py:156-166 | Blank and comment lines are dropped, the rest keep indentation and text |
| `YamlReader.ReadText` | scripts/lint_claims.py:156-173 | The whole reader computes the grammar |
| `WellKeyed.ParsedIsWellKeyed` | scripts/lint_claims.py:148-150 | No mapping of an accepted text, at any depth, has a key twice |
| `Grammar.ScalarExactlyWhen` | scripts/lint_claims.py:69-95 | A token reads as a string if and only if it is the escaped string between quotes, or the string itself with no reserved shape |
| `Grammar.MatchKeyExactlyWhen` | scripts/lint_claims.py:134-137 | A line is a key line if and only if it is a key, a colon, and nothing or a blank and the rest |
| `Grammar.AcceptedExactlyWhenLaid` | scripts/lint_claims.py:98-173 | A text is accepted as a value if and only if its logical lines lay that value out: a grammar of sequences, items, mappings and fields that says nothing about reading |
| `Grammar.LayoutsAreUnambiguous` | scripts/lint_claims.py:98-153 | No lines lay out two values |
| `YamlAppend.LogicalJoins` | scripts/lint_claims.py:156-166 | Joining texts by a line feed joins their logical lines, however the first ends |
| `YamlAppend.BlockStops` | scripts/lint_claims.py:104-153 | A nested block parses the same with any flush continuation behind it, errors included |
| `YamlAppend.AppendingTextsAppendsLists` | scripts/lint_claims.py:104-173 | Texts that parse to lists, joined by a line feed, parse to the lists joined |
| `Tokens.UnquoteEscaped` | tools/verify_stage_e_ledger_coverage.py:1329-1333 | Reading an escaped string gives the string back, for every string |
| `Tokens.BareReadsItselfExactlyWhen` | scripts/lint_claims.py:69-95 | Exactly which strings a bare scalar reads as themselves |
| `Tokens.CleanedIsPointwise` | tools/verify_stage_e_ledger_coverage.py:1329-1333 | The quoter’s substitutions blank exactly carriage return, line feed and tab |
| `Tokens.WrittenIsRead` | tools/verify_stage_e_ledger_coverage.py:1329-1333 | A printable token is read as its meaning |
| `PrintParse.PrintThenParse` | tools/verify_stage_e_ledger_coverage.py:1464-1552 | Any non-empty list of printable records, rendered, parses to the records’ meanings in order |
| `Ledgers.RenderRecords` | tools/verify_stage_e_ledger_coverage.py:1464-1552 | The printing loop computes the rendering |
| `Ledgers.RenderClaims` | tools/verify_stage_e_ledger_coverage.py:1483-1524 | Printable claims, rendered, parse back to the claims with quoted text cleaned |
| `Ledgers.RenderRisks` | tools/verify_stage_e_ledger_coverage.py:1527-1552 | The same for risks |
| `Ledgers.RenderEvidence` | tools/verify_stage_e_ledger_coverage.py:1464-1480 | The same for evidence entries |
| `Backfill.Classify` | tools/verify_stage_e_ledger_coverage.py:1423-1461 | Missing requirements, those registered for stage E and those registered earlier, in order, and exactly the duplicated identifiers |
| `Backfill.NoRequirementIsLost` | tools/verify_stage_e_ledger_coverage.py:1443-1452 | Missing, stage E and earlier requirements together are the required list, with multiplicity |
| `Backfill.Generate` | tools/verify_stage_e_ledger_coverage.py:1555-1602 | Candidates are exactly the missing requirements from the catalogue; each error case |
| `Backfill.BackfillCompletes` | tools/verify_stage_e_ledger_coverage.py:2045-2054 | After appending the block everything required is registered, nothing else is added, and a second generation emits nothing |
| `Registrations.FirstIsFirst` | tools/verify_stage_e_ledger_coverage.py:1436-1449 | The entry that decides the stage of a requirement is the earliest about it, wherever it stands |
| `Registrations.BackfillRegisters` | tools/verify_stage_e_ledger_coverage.py:1583-1602 | After the append the first entry about each formerly missing requirement has stage E, status PARTIAL_PASS and exactly the catalogue’s values under their keys; about any other requirement it is the one it was |
| `Registrations.BackfillReclassifies` | tools/verify_stage_e_ledger_coverage.py:1423-1461 | Classifying again lists the formerly missing requirements under stage E, with multiplicity, and moves no other |
| `Registrations.RiskReadsBack` | tools/verify_stage_e_ledger_coverage.py:1527-1552 | A rendered risk has each of its texts under its own key |
| `Registrations.EvidenceReadsBack` | tools/verify_stage_e_ledger_coverage.py:1464-1480 | So has a rendered evidence entry |
| `Backfill.NoNewDuplicatesExactlyWhen` | tools/verify_stage_e_ledger_coverage.py:2045-2054 | The append introduces no duplicate if and only if no missing requirement is required twice |
| `RequiredLists.NoNewDuplicatesExactlyWhenDisjoint` | tools/verify_stage_e_ledger_coverage.py:1409-1410 | With the required list joined from two lists, each free of repeats: if and only if everything on both lists is already claimed |
| `RequiredLists.BothShapesExactlyWhen` | tools/verify_stage_e_ledger_coverage.py:104-105 | An identifier has the shapes of both lists if and only if it is a normative one whose first word is E |
| `RequiredLists.CanDoubleExactlyWhen` | tools/verify_stage_e_ledger_coverage.py:1555-1602 | For any catalogue: some ledger and some lists of the two shapes make the generation succeed and claim something twice if and only if the catalogue holds an identifier of both shapes |
| `RequiredLists.BackfillNeverDoubles` | tools/verify_stage_e_ledger_coverage.py:2045-2054 | Without such an identifier in the catalogue, the ledger with the generated block appended parses and has no new duplicate |
| `RequiredLists.StopsExactlyWhen` | tools/verify_stage_e_ledger_coverage.py:1582-1587 | The generation stops if and only if something required is neither claimed nor in the catalogue |
| `RequiredLists.CatalogueIsSafe` | tools/verify_stage_e_ledger_coverage.py:157-1255 | No identifier of the tool’s own catalogue has both shapes |
| `RequiredLists.BothShapesStop` | tools/verify_stage_e_ledger_coverage.py:1582-1587 | So with that catalogue an unclaimed identifier of both shapes stops the generation |
| `RequiredLists.ListedTwiceStops` | tools/verify_stage_e_ledger_coverage.py:1582-1587 | As the work package E-X-001 does, although both lists may hold it |
| `Namespaces.NamespacePrefixLen` | crates/nlos-capability/src/namespace.rs:13-19 | The loop computes the length of the shortest path with only padding after it |
| `Namespaces.WithinMeansPathPrefix` | crates/nlos-capability/src/namespace.rs:23-28 | Containment is exactly the prefix order on paths |
| `Namespaces.WithinIsReflexive` | crates/nlos-capability/src/namespace.rs:23-28 | Every namespace is within itself |
| `Namespaces.WithinIsAntisymmetric` | crates/nlos-capability/src/namespace.rs:23-28 | Mutual containment is equality |
| `Namespaces.WithinIsTransitive` | crates/nlos-capability/src/namespace.rs:23-28 | Containment is transitive |
| `Namespaces.AncestorsFormAChain` | crates/nlos-capability/src/namespace.rs:23-28 | Two namespaces containing one namespace are comparable |
| `Namespaces.NarrowingStaysWithin` | crates/nlos-capability/src/namespace.rs:33-43 | After any sequence of narrowings a target is within every earlier one |
| `Namespaces.GrantsOverOneRequest` | crates/nlos-capability/src/namespace.rs:33-43 | Two grants covering one request are comparable |

## Left out

- Background-task and process registrations, which have the shape of surface registration, and all inspection queries of
  the authority, which are read-only.
- SQLite itself, locking, schema migrations of the database file, and rows written by earlier schema versions.
- The payloads of errors: each refusal is modelled by its kind.
- Hashing of identifiers and signature verification of packages: their results are inputs.
- The text scanners of the manifest and of `.proto` files; the manifest's structural conditions are `Manifests.Structural`,
  and a manifest or schema is given as what the scanner returns, with entries and channels keyed as in its dictionaries.
- ManifestDiff.DiffManifests: does not fix the order of findings between channels and entries with different names, nor
  rule identifiers and detail texts; the walk is over an enumeration instead of the sorted names.
- CanonicalYaml.MatchKey is the key pattern on stripped lines, which never contain a line break.
- Backfill.Generate: does not generate risk and evidence candidates, which repeats the generation of claims with other
  fields; their rendering is modelled.
- RequiredLists.NormativeShape: takes the three digits of a normative identifier from 0 to 9; the pattern also admits other
  decimal digits, which a work package's shape never contains.
- The extraction of the two required lists from the progress document: they are any lists without repeats of their shapes.
- The fixed comment banner above a rendered block is a parameter, any lines that start with `#`.
- The other lints of the claims ledger, the repository audits around them, and capability admission beyond the narrowing of
  targets.
- Authority.ApplicationAuthority.Put: models the three writes as one method, since no other transaction can observe the
  tables between them.
