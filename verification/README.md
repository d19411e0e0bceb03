# docker-dns-sync: a verified model

docker-dns-sync keeps DNS records in step with running containers. It lists what containers desire, what a DNS output
shows, and what its own state file remembers as owned; plans creates, updates, deletes, keeps and drops; applies them one
remote call at a time; stores the new state, also after partial progress; and retries a whole new pass after a temporary
failure. Between passes it watches the container engine and coalesces lifecycle events. This project models that logic in
Dafny and proves what it is for. `dafny verify dfyconfig.toml` checks everything.

## Hypotheses

The theorems name the hypotheses they need, and only those.

- **H1** (`Fates.NoBars`): the fields that are joined into keys hold no `|`.
- **H2** (`Fates.OneDesiredPerHost`): once the last desired record of every lineage has won, normalised hostnames are
  distinct.
- **H3** (`Fates.OneManagedPerHost`): an output's owned records have distinct normalised hostnames.
- **H4** (`Fates.OneVisiblePerHost`): an output lists at most one record per normalised hostname.
- **H5**: a remote call that fails has no effect and one that succeeds has exactly its stated effect
  (`Remote.Output.Perform`), and saving succeeds (`Passes.Reliable`). A call that took effect but reported failure is
  outside H5.

`Fates.Orderly` is H1 to H3 with an unambiguous listing, `Fates.Tidy` is H1 to H4. H2 and H4 can fail on ordinary inputs,
and what then happens is stated exactly. `Orders` needs none of H1 to H4: it says when the order of map iteration shows in
the bookkeeping that the calls start from, and when in the calls. `Collisions` needs H1 and H3: it says which prefixes of
the calls can be made, and which leave an ambiguity that stops the next pass. `Witnesses` gives concrete facts for both,
and facts that satisfy all the hypotheses and leave work to do (`Witnesses.HypothesesCanBeMet`).

## Layout

- `Text`, `Records`, `Keys`, `Seqs`: Go's string operations, the exchanged values, the keys, sequences and index maps.
- `Planner`: the planner with its six indexes. Go's map iteration is an arbitrary pick from the keys that are left, so
  `IsPlan` describes what every order of iteration can return.
- `Fates`, `Refinement`, `Cells`: the specification. Every normalised hostname has a fate that depends on that hostname's
  records alone; planner and in-memory bookkeeping refine it. `Decisions` says what that fate is, in terms of the records.
- `Remote`, `Apply`, `Steps`, `Replay`: the output, the pass over a plan, and what every prefix of its calls leaves.
- `Resume`, `Convergence`, `Replacement`, `Conservation`, `Safety`, `Ownership`, `Gates`: the theorems about passes and
  about runs of passes. `Orders`, `Collisions`, `Witnesses`: what holds without the hypotheses.
- `App`, `Exits`, `Locality`, `Passes`, `Retries`, `Backoff`: one output with its state file, the theorems at each of its
  exits, all outputs, the retry loop, and 64-bit delay arithmetic. `Scenarios` calls the retry loops and the Cloudflare
  output on concrete inputs, so their preconditions can be met.
- `Watch`, `Tokens`, `Wakeups`, `Cancellations`, `Debounce`, `Streams`, `Causes`, `Progress`: the watchers as a step
  relation over two goroutines per watch, the bounded event queue, reconnect sleepers, the debounce timer and the main
  loop.
- `Cloudflare`, `CloudflareOutput`, `CloudflareReplan`: names inside a zone, the identifier cache, recovery from a
  duplicate create, and what the planner makes of a Cloudflare listing.
- `AtomicFile`: the file write over a file system that forgets what was not synced.
- `Labels`, `Derivation`: the two readers of container labels, and the desired records. `Published` says what they are, in
  terms of the labels.

## Main results

- Failure transparency: after any prefix of a pass's calls, planning again yields exactly the remaining calls
  (`Resume.ReplanIsSuffix`), so any number of temporary failures followed by success leaves the remote, the log of
  successful calls and the state (time stamps aside) that an undisturbed pass leaves (`Retries.Reconcile`). If nothing
  fails but temporarily, the loop ends in success or with its budget spent.
- The planner's decisions, one exact condition on the records for each: create, update, keep, delete, retain, drop
  (`Decisions`); and what a container publishes, on its labels (`Published.DerivedExactly`).
- Convergence (`Convergence.Converges`) and independence of map order (`Convergence.OrderDoesNotMatter`). With no
  hypothesis at all, some other order leaves another bookkeeping exactly if one kept record replaces the lineage of
  another one (`Orders.BookkeepingDependsExactly`), and makes the calls in another order exactly if two of them tie
  (`Orders.CallOrderDependsExactly`).
- Ambiguities: a prefix of the calls can be made exactly if no two of its updates start from the same record
  (`Collisions.RunsExactly`), and then leaves an ambiguous listing exactly if an update takes a listed key or two calls
  put the same one (`Collisions.AmbiguousExactly`).
- At every exit of a pass, early or not: H3, own keys, and exactly one of old and new identity
  (`Replacement.EveryExitIsOrderly`, `Replacement.IdentityIsNeverLostOrDoubled`), stated of what `ReconcileAndPersist`
  leaves in the store in `Exits`.
- Ownership: no owned record disappears without one of three visible reasons (`Conservation.OwnershipIsConserved`), and no
  record is touched whose identifier the daemon was not given, over every run of passes over any outputs
  (`Ownership.OnlyOwnedRecordsAreTouched`); the runs of the retry loop are such runs (`Retries.Reconcile`).
- Watching: one token per source in every reachable state (`Tokens.TokenIsConserved`) and no lost wake-up, exactly as
  long as no stream error wraps a cancellation (`Wakeups.NoLostWakeup`, `Cancellations.WakeupsAreKeptExactly`). Without
  any fairness: the goroutines come to rest within a number of steps that is known beforehand, and at rest every event
  read has had its reconcile and every source is watched again (`Progress.InternalStepsEnd`, `Progress.RestHasServed`,
  `Progress.RestIsWatched`). Every reconcile has its cause: hints are coalesced, one reconcile for each time the debounce
  timer was armed, and never more reconciles than causes from outside (`Debounce.ReconcilesHaveCauses`,
  `Causes.ReconcilesAreCaused`).
- Where the code falls short. A forwarder treats a stream error that wraps a cancellation as a shutdown although the
  context is live (internal/runtime/app.go:417-419, while internal/providers/docker/source.go:220 only filters the bare
  error); the source is then never watched again. `Cancellations.WrappedCancellationLosesWakeup` gives the run, for every
  non-empty set of sources. Two containers with one hostname and display name: the order of map iteration alone can
  decide whether a lineage is lost (`Orders.BookkeepingDependsExactly`, `Witnesses.OrderMattersWithoutH2`). In a zone
  whose name is a single label the identifier cache can answer for a record that the hostname equivalence tells apart
  (`Cloudflare.CacheAgreesExactly`).
- Cloudflare lists full names, so a desired hostname of a single label is planned as a create again in every pass and only
  the duplicate recovery absorbs it. `CloudflareReplan.CompletedReplanIsEmptyExactly` gives the condition on the desired
  records under which replanning is empty. `CloudflareReplan.AppliedFate` says what else happens to such a record: when
  its answer changes a second one is created next to it, and when it is no longer desired the daemon forgets it and leaves
  it in the zone. `CloudflareReplan.SingleLabelIsCreatedAgain`, `Scenarios.CreateAgain` and `Scenarios.CreateAfterChange`
  are the case of `web` in the zone `example.com`.

docs/integrations.md:37 names error code 81058 alone as recoverable on create; the code accepts four codes
(internal/providers/cloudflare/output.go:323-328) and the model follows the code.

## Model

| member | source | states |
|---|---|---|
| Keys.RecordKeyFaithful | internal/runtime/reconcile_keys.go:9-20 | under H1 two hostname/answer keys are equal exactly when both normalised components are |
| Keys.LineageKeyFaithful | internal/runtime/reconcile_keys.go:22-38 | under H1 two lineage or display-lineage keys are equal exactly when all six normalised components are |
| Keys.LineageKeyCollides | internal/runtime/reconcile_keys.go:22-29 | with a separator inside a field, different objects share a lineage key |
| Keys.NormalizeIsNotIdempotent | internal/runtime/reconcile_keys.go:9-12 | normalising `a..` twice differs from normalising it once |
| Keys.NormalizeTwiceExactly | internal/runtime/reconcile_keys.go:9-12 | normalising twice is normalising once exactly if the normal form ends in no dot and no space |
| Seqs.SortByKey | internal/runtime/reconcile_plan.go:174-182 | some sorted permutation by key, as the library promises |
| Planner.BuildIndexes | internal/runtime/reconcile_plan.go:36-73 | the loops build the six index maps of the specification |
| Planner.FindAmbiguities | internal/runtime/reconcile_plan.go:48-52 | exactly the keys listed more than once, with their counts |
| Planner.BuildReconcilePlan | internal/runtime/reconcile_plan.go:28-185 | every result satisfies `IsPlan`: each list enumerates exactly its decided records, each drop map its replaced ones, for any order of map iteration |
| Gates.MatchIsOwned | internal/runtime/reconcile_plan.go:76-93 | a matched owned record is the output's own, and under H1 has the desired record's normalised hostname |
| Gates.UpdateIsGated | internal/runtime/reconcile_plan.go:100-122 | an update targets a listed record that carries the owned identifier, or no identifier and more in common than the hostname |
| Gates.UpdateWithoutIdentifier | internal/runtime/reconcile_plan.go:204-213 | whatever the facts: a record that shows no identifier is only updated if some owned record has the desired one's lineage, or is the only one with its display lineage |
| Gates.UpdateWithIdentifier | internal/runtime/reconcile_plan.go:204-213 | whatever the facts: a record that shows an identifier is only updated if an owned record has that identifier |
| Gates.CreateTargetsFreeHost | internal/runtime/reconcile_plan.go:123-153 | a create only targets a hostname under which nothing is listed |
| Gates.UpdateKeepsHost | internal/runtime/reconcile_plan.go:100-119 | an update never changes the normalised hostname |
| Gates.DeleteNeedsProof | internal/runtime/reconcile_plan.go:187-198 | a delete targets a listed record with the owned key and the same non-empty identifier, and no desired record has its lineage |
| Gates.AmbiguityIsReported | internal/runtime/reconcile_plan.go:48-52 | an ambiguity is reported exactly when some key is listed twice |
| Fates.MatchIsByHost | internal/runtime/reconcile_plan.go:76-93 | under H1 and H3 the three lookups find the one owned record of the hostname, or none |
| Fates.DecideByHost | internal/runtime/reconcile_plan.go:76-154 | without H2, too, the decision for a desired record depends on its hostname's owned and listed records alone |
| Fates.DecideIsFate | internal/runtime/reconcile_plan.go:76-154 | the decision over four indexes equals the fate of the hostname |
| Fates.StaleIsUndesired | internal/runtime/reconcile_plan.go:156-162 | an owned record is stale exactly when nothing desired has its hostname |
| Fates.DecideStaleIsFate | internal/runtime/reconcile_plan.go:163-172 | delete, retain or drop of a stale record equals the fate of its hostname |
| Refinement.NextManagedByFate | internal/runtime/reconcile_plan.go:133-170 | a record is kept or retained exactly when its hostname's fate says so |
| Refinement.DropsByFate | internal/runtime/reconcile_plan.go:163-172 | a record is dropped exactly when its hostname's fate is to be forgotten |
| Refinement.KeepDropsByFate | internal/runtime/reconcile_plan.go:133-146 | what a kept record replaces is what its hostname's fate replaces |
| Refinement.CallsByFate | internal/runtime/reconcile_plan.go:76-172 | a call is made exactly when it is the fate of its hostname |
| Refinement.CallsInOrder | internal/runtime/reconcile_plan.go:174-182 | calls come strictly ordered by phase and key |
| Refinement.CallsAreDetermined | internal/runtime/reconcile_plan.go:36-185 | two plans of the same facts make the same calls in the same order |
| Decisions.DesiredExactly | internal/runtime/reconcile_plan.go:54-61 | the desired record of a hostname is the one that is last of its lineage |
| Decisions.CreatedExactly | internal/runtime/reconcile_plan.go:94-154 | created exactly if desired and nothing is listed under the hostname |
| Decisions.UpdatedExactly | internal/runtime/reconcile_plan.go:100-122 | updated exactly if the listed record has drifted and shows the owned identifier, or shows none and source provider with id or display name are the owner's |
| Decisions.KeptExactly | internal/runtime/reconcile_plan.go:133-146 | kept exactly if owned, listed as desired, and nothing has drifted; booked with the owned identifier |
| Decisions.UndesiredExactly | internal/runtime/reconcile_plan.go:156-198 | when nothing desires the hostname: deleted exactly if the owned answer is listed with the owned identifier, retained if anything else is listed, dropped if nothing is |
| Cells.BaseCells | internal/runtime/reconcile_apply.go:26-37 | drops and keeps leave under every hostname what its fate settles to |
| Remote.Output.Perform | internal/contracts/output.go:16-22 | a mutation either has its stated effect and answer, or fails without effect |
| Remote.IdentifiersAreFresh | internal/contracts/output.go:16-22 | an output that exposes identifiers hands out new ones |
| Apply.SplitOwned | internal/runtime/reconcile_apply.go:14-22 | own records by lineage, everybody else's in order |
| Apply.ApplyDropsAndKeeps | internal/runtime/reconcile_apply.go:26-37 | the in-memory loops compute the specification's bookkeeping |
| Apply.ApplyCreates | internal/runtime/reconcile_apply.go:39-50 | remote and bookkeeping stand after the calls that succeeded; it stops at the first failure |
| Apply.ApplyUpdates | internal/runtime/reconcile_apply.go:52-63 | the same for updates |
| Apply.ApplyDeletes | internal/runtime/reconcile_apply.go:65-73 | the same for deletes |
| Apply.SnapshotWithOutputRecords | internal/runtime/reconcile_apply.go:78-93 | other outputs' records first and unchanged, then the own ones in the order of their lineages |
| Apply.ApplyReconcilePlan | internal/runtime/reconcile_apply.go:13-76 | remote, snapshot and progress flag are those of a prefix of the calls, all of them unless a call failed; one request for each of them and one for the failed call |
| Replay.SettledStep | internal/runtime/reconcile_apply.go:39-75 | one more call finds its target and settles its own hostname and no other |
| Replay.PrefixSettles | internal/runtime/reconcile_apply.go:39-75 | under H1 to H4 every prefix of the calls can be made and keeps H3 and H4 |
| Resume.ReplanIsSuffix | internal/runtime/reconcile_apply.go:39-75 | planning after any stored prefix yields exactly the remaining calls in order |
| Resume.ResumedRun | internal/runtime/reconcile.go:75-103 | a resumed pass reaches what the undisturbed pass reaches, time stamps aside |
| Resume.SnapshotHolds | internal/runtime/reconcile_apply.go:78-93 | a snapshot holds the bookkeeping of its output and the other outputs' records unchanged |
| Resume.StoredRoundTrip | internal/runtime/reconcile_apply.go:14-22 | reading the stored records back gives the bookkeeping that was stored |
| Resume.StoreAfterResume | internal/runtime/reconcile.go:87-118 | storing after some calls of a resumed pass stands at the sum of both prefixes |
| Safety.NoTargetTwice | internal/runtime/reconcile_plan.go:97-153 | no listed record is the target of two calls, and no create meets a record of its hostname |
| Safety.NeverCausesAmbiguity | internal/runtime/reconcile_apply.go:39-75 | after every prefix H4 holds, so the next planning finds no ambiguity |
| Convergence.Converges | internal/runtime/reconcile_plan.go:94-172 | after a successful pass a new plan is empty and keeps every record, time stamps aside |
| Convergence.OrderDoesNotMatter | internal/runtime/reconcile_plan.go:36-182 | under H1 to H3 and an unambiguous listing, calls, states and bookkeeping are the same for every map order |
| Convergence.SnapshotIsUnique | internal/runtime/reconcile_apply.go:78-93 | the bookkeeping determines the snapshot |
| Orders.BookkeepingDependsExactly | internal/runtime/reconcile_apply.go:26-37 | without any hypothesis: another map order leaves another bookkeeping in front of the calls exactly if one kept record replaces the lineage of another kept record |
| Orders.CallOrderDependsExactly | internal/runtime/reconcile_plan.go:174-182 | without any hypothesis: another map order makes the calls in another order exactly if two creates, two updates or two deletes share their sort key |
| Replacement.EveryExitIsOrderly | internal/runtime/reconcile_apply.go:14-76 | under H1 to H3 the snapshot of every exit satisfies H3 and own keys, whatever the output answered |
| Replacement.IdentityIsNeverLostOrDoubled | internal/runtime/reconcile_plan.go:102-139 | a record whose source identity changed is held under exactly one of both lineages at every exit |
| Replacement.EveryCallIsBooked | internal/runtime/reconcile_apply.go:39-75 | at every exit a successful create or update is booked with its time and the identifier the output answered, else the listed one; a deleted record is gone |
| Replacement.OtherHostsAreBooked | internal/runtime/reconcile_apply.go:26-37 | at every exit a hostname without a call is booked by its fate: stamped, forgotten, or as it was |
| Conservation.OwnershipIsConserved | internal/runtime/reconcile_apply.go:26-73 | under H1 an owned record goes only by a successful delete, an unlisted hostname, or a successor of its hostname |
| Ownership.TargetsAreClaimed | internal/runtime/reconcile_plan.go:204-229 | every update or delete is aimed at an identifier that the state claims |
| Ownership.ClaimsAreGranted | internal/runtime/reconcile_apply.go:45-58 | over every run of passes over any outputs the state claims for an output only initial identifiers or ones that output returned |
| Ownership.OnlyOwnedRecordsAreTouched | internal/runtime/reconcile_plan.go:101-146 | over every such run, with arbitrary listings and answers, updates and deletes only hit such identifiers |
| Ownership.ForeignRecordsAreSafe | internal/runtime/reconcile_plan.go:187-229 | an identifier the daemon was never given is never touched |
| Witnesses.OrderMattersWithoutH2 | internal/runtime/reconcile_plan.go:76-93 | two containers with one hostname and display name: two orders, two different states |
| Witnesses.UpdateCollidesWithoutH4 | internal/runtime/reconcile_plan.go:100-107 | an update onto a listed record makes the next listing ambiguous |
| Collisions.UnambiguousByHost | internal/runtime/reconcile_plan.go:36-52 | a listing is unambiguous exactly when the records of every hostname have distinct keys |
| Collisions.KeyBalance | internal/contracts/output.go:16-22 | over every run of calls, the records with a key and those taken are those there were and those put |
| Collisions.SameHostSameKind | internal/runtime/reconcile_plan.go:94-172 | under one hostname there are only creates, or only updates of one record, or a single delete |
| Collisions.RunsExactly | internal/runtime/reconcile_apply.go:39-75 | without H2 and H4 a prefix of the calls can be made exactly if no two of its updates start from the same record |
| Collisions.AmbiguousExactly | internal/runtime/reconcile_plan.go:97-153 | such a prefix leaves an ambiguity exactly if one of its updates takes a key that is already listed, or two of its calls put the same key |
| Collisions.AmbiguousExactlyByCollision | internal/runtime/reconcile_plan.go:100-122 | under H2, too, every prefix can be made, and leaves an ambiguity exactly when one of its updates takes a key that is already listed |
| Witnesses.HypothesesCanBeMet | internal/runtime/reconcile_plan.go:94-107 | facts that satisfy H1 to H4, with one update as the only plan |
| Locality.IndexIsLocal | internal/runtime/reconcile_plan.go:63-73 | the indexes see the output's own records only |
| Locality.PassIsLocal | internal/runtime/reconcile_apply.go:14-22 | plans and course of a pass do not depend on other outputs' records |
| Locality.StoringKeepsOtherParts | internal/runtime/reconcile_apply.go:78-93 | storing one output's pass leaves every other output's records in place and order |
| App.Store.Save | internal/state/store.go:62-79 | the current version is forced; a failed save leaves the old state |
| App.Store.Load | internal/state/store.go:40-60 | what was saved, unless the version is another one |
| App.ReconcileAndPersist | internal/runtime/reconcile.go:63-118 | an ambiguity means no call and an unchanged store; partial progress is stored; completion stores everything; a failure has the fault its last request got |
| Exits.RunIsCommitted | internal/runtime/reconcile_apply.go:39-75 | the bookkeeping of a pass is that of its calls with the answers they got |
| Exits.EveryEndIsOrderly | internal/runtime/reconcile.go:87-118 | however the pass over one output ends, the store satisfies H3 and keeps the other outputs' records |
| Exits.StoredIdentityIsExclusive | internal/runtime/reconcile.go:87-118 | what is stored holds a changed identity under exactly one of both lineages |
| Exits.OwnershipIsConservedAtEnd | internal/runtime/reconcile.go:87-118 | however the pass ends, a stored record goes only for one of the three reasons |
| Exits.EveryEndIsPass | internal/runtime/reconcile.go:63-118 | however the pass ends, it is a pass that ownership safety ranges over |
| Passes.CollectDesired | internal/runtime/app.go:154-166 | all sources' records in order, or the fault of the first source whose listing failed |
| Passes.AllDesiredInOrder | internal/runtime/app.go:154-166 | one source's records after the other's |
| Passes.FilterDesiredForOutput | internal/runtime/app.go:195-211 | exactly the positions whose record names no output type or the output's, in order |
| Passes.ReconcileListed | internal/runtime/app.go:168-190 | one output advances along its plan or stays, saved or not, and no other output's records change |
| Passes.ReconcileOutputs | internal/runtime/app.go:168-192 | outputs before the failing one are final, later ones untouched, each as if alone, whichever listing, call or save fails; the result has the fault of the last request, and no request follows it |
| Passes.ReconcileOnce | internal/runtime/app.go:147-193 | the same for a whole pass; records of unconfigured outputs stay; temporary failures alone end in success or a failure that is tried again |
| Retries.UnderwayAtStart | internal/runtime/app.go:85-145 | in front of the first pass every output stands at the start of its undisturbed pass |
| Retries.PassResumes | internal/runtime/app.go:90-145 | one more pass takes an output further along the same undisturbed pass, to its end if the pass finishes |
| Retries.UnderwayIsLogged | internal/runtime/app.go:90-145 | the output has served exactly the first calls of the undisturbed pass |
| Retries.RetryableExactly | internal/runtime/app.go:99-133 | only four results are tried again: a source listing, output listing or mutation that failed temporarily, saved or not |
| Retries.Reconcile | internal/runtime/app.go:85-145 | temporary failures then success leave remote, log and state of an undisturbed pass, within the retry budget and bound; every attempt in front of the last failed for a reported temporary fault; no request follows a permanent one; without permanent failures it ends in success or with the budget spent |
| Scenarios.ReconcileWithOneFailure | internal/runtime/app.go:85-145 | one temporary mutation failure: if the loop succeeds, the one update was served once |
| Backoff.DoublesUnlessOverflow | internal/runtime/app.go:378-390 | the delay doubles up to the limit exactly when doubling fits in 64 bits |
| Backoff.OverflowCollapses | internal/runtime/app.go:378-390 | beyond that the delay turns negative and then zero |
| Backoff.RetryDelayCollapses | internal/runtime/deps.go:158-161 | the second loop's delay turns negative and then stays zero, so that it sleeps no more |
| Backoff.DelayIsClamped | internal/runtime/app.go:378-390 | the n-th delay in closed form |
| Backoff.LoopsDelayAlike | internal/runtime/deps.go:158-161 | the two retry loops delay alike exactly up to half the 64-bit range |
| Backoff.RetriesAreBounded | internal/runtime/app.go:99-111 | the sleep that fits the budget bounds the number of retries |
| Backoff.TicksCanBeMet | internal/runtime/deps.go:130-163 | a clock that counts only the sleep meets the assumption, if the durations leave room in 64 bits |
| Backoff.NextRetry | internal/runtime/app.go:99-111 | within the budget the time check does not wrap, and delay and sleep are those of the closed form |
| Backoff.RetryWithBackoff | internal/runtime/deps.go:130-163 | attempts, total sleep and stopping reason of the second loop |
| Scenarios.RetryTwice | internal/runtime/deps.go:130-163 | two failures and a success take three attempts |
| Tokens.StepKeepsToken | internal/runtime/app.go:288-434 | every step of every goroutine keeps each source's token, but for a silent exit |
| Tokens.TokenIsConserved | internal/runtime/app.go:272-348 | in every live state of every run a source has exactly one token, or none once a forwarder has exited silently |
| Tokens.OneWatcherPerSource | internal/runtime/app.go:392-434 | two watchers never run for one source |
| Tokens.DisconnectIsNeverIgnored | internal/runtime/app.go:340-343 | the pending check never drops a disconnect |
| Tokens.ReconnectsAreSpaced | internal/runtime/app.go:344-376 | every reconnect waits at least the smaller and at most the larger interval |
| Debounce.HintIsCoalesced | internal/runtime/app.go:298-320 | a hint arms the timer if that is off and otherwise changes neither timer nor phase; without a debounce it is due at once and no timer is set |
| Debounce.ReconcilesHaveCauses | internal/runtime/app.go:288-348 | one reconcile for the start, one for each reconnect, and for hints one for each arming that neither still runs nor was cleared; without a debounce one for each hint |
| Debounce.HintReconcilesNeedFirings | internal/runtime/app.go:288-320 | between any two states hint reconciles need as many firings of the timer, but for one that was ready |
| Debounce.NoSourcesNoReconcile | internal/runtime/app.go:260-263 | without a source to watch there is no reconcile |
| Debounce.FailedReconcileEnds | internal/runtime/app.go:294-296 | a failed reconcile ends the loop |
| Debounce.ReconnectWaitsItsTurn | internal/runtime/app.go:339-348 | a disconnect schedules one reconnect after the delay of the backoff for the disconnects since the source last worked |
| Streams.QueueIsBounded | internal/runtime/app.go:262-270 | the event queue never holds more events than there are watchable sources |
| Streams.ReaderFollowsStream | internal/providers/docker/source.go:170-229 | in every live state reader, error channel and forwarder are where the stream's own steps have brought them; only a bare cancellation is not reported |
| Streams.StreamsSpeakInOrder | internal/providers/docker/source.go:191-229 | a stream is only read through channels that are open |
| Streams.EndIsTold | internal/runtime/app.go:392-434 | a forwarder gives up only after its stream has ended, and then tells the main loop unless that reported a wrapped cancellation |
| Causes.HintsAreRead | internal/runtime/app.go:288-320 | every hint the main loop takes comes from a relevant event of its own |
| Causes.ReconnectsAreEnds | internal/runtime/app.go:322-348 | every reconnect comes from a forwarder of its own that has ended |
| Causes.ReconcilesAreCaused | internal/runtime/app.go:288-348 | at most one reconcile for the start, one for each relevant event read, and one for each stream that ended |
| Progress.InternalStepsEnd | internal/runtime/app.go:288-434 | while the outside is quiet the goroutines make at most as many steps as there is work left, in any order |
| Progress.RestHasServed | internal/runtime/app.go:288-337 | whatever the schedule: once nothing moves any more, a relevant event that was read has had its reconcile, unless a wrapped cancellation was taken for a shutdown |
| Progress.RestIsWatched | internal/runtime/app.go:288-434 | once nothing moves any more, every source has exactly one watcher on an open stream and nothing is on the way, with the same exception |
| Progress.CancelEndsEverything | internal/runtime/app.go:288-434 | at any moment a cancellation can end all goroutines without another reconcile |
| Progress.CancelledIsQuiet | internal/runtime/app.go:405-434 | after a cancellation no end of a stream is reported |
| Wakeups.StepKeepsCarrier | internal/runtime/app.go:288-337 | a carrier survives every step until a reconcile starts, also when the timer is cleared or a buffer is full |
| Wakeups.NoLostWakeup | internal/providers/docker/source.go:191-229 | after a relevant event was read, every later state has seen a reconcile start or holds a carrier |
| Wakeups.SilentExitIsWrapped | internal/runtime/app.go:412-419 | a silent exit needs a stream error that wraps a cancellation |
| Cancellations.WrappedCancellationLosesWakeup | internal/runtime/app.go:417-419 | for every set of sources some run loses an event, goes on, and has no token left for the source |
| Cancellations.WakeupsAreKeptExactly | internal/runtime/app.go:412-419 | no run whose stream errors are among the allowed ones loses a wake-up, exactly if a wrapped cancellation is not allowed |
| Wakeups.CarrierCanMove | internal/runtime/app.go:288-376 | a waiting main loop and a carrier always leave some internal step enabled |
| Cloudflare.RelativeIsLabel | internal/providers/cloudflare/output.go:461-481 | the short form of a name in the zone is its one label in front of the zone |
| Cloudflare.EquivalentByForm | internal/providers/cloudflare/output.go:493-513 | equivalence is meeting the full or the short form |
| Cloudflare.CacheIsScan | internal/providers/cloudflare/output.go:87-118 | a cache lookup returns the last listed equivalent record with the same answer, or nothing |
| Cloudflare.CacheAgreesExactly | internal/providers/cloudflare/output.go:223-229 | cache and scan agree on all listings exactly when the query is not a zone of a single label |
| Cloudflare.FullNameIsEquivalent | internal/providers/cloudflare/output.go:493-513 | a completed name is equivalent to the name exactly for a single label or a name inside the zone |
| CloudflareOutput.CloudflareOutput.ListVisible | internal/providers/cloudflare/output.go:77-121 | the supported records normalised, and the cache of exactly this listing; fails exactly if there is no zone id or a request fails |
| CloudflareOutput.CloudflareOutput.Update | internal/providers/cloudflare/output.go:174-194 | replaces the record with the identifier exactly if that is trusted, hostname and answer are not empty, the record exists and the request succeeds; else the problem in this order, without effect |
| CloudflareOutput.CloudflareOutput.Delete | internal/providers/cloudflare/output.go:196-208 | removes the record with the identifier exactly if that is trusted, the record exists and the request succeeds; else without effect |
| CloudflareOutput.OnlyMatchIsAccepted | internal/providers/cloudflare/output.go:210-221 | right after its listing the one match passes the cached-metadata check |
| CloudflareOutput.CloudflareOutput.Create | internal/providers/cloudflare/output.go:123-172 | success names a record that serves the desired one, at most one record changed; a refusal without one of the four codes is returned as it is after one request; a duplicate of the desired record is absorbed, one without a single match is refused, one with another answer is replaced if the requests succeed |
| CloudflareOutput.CloudflareOutput.Recover | internal/providers/cloudflare/output.go:139-169 | the same for the recovery alone |
| CloudflareOutput.DuplicateExactly | internal/providers/cloudflare/output.go:294-332 | which codes say duplicate and which statuses are temporary |
| CloudflareOutput.AcceptedExactly | internal/providers/cloudflare/output.go:210-221 | an identifier is trusted exactly if it is not blank and the last listing had no other one for hostname and answer |
| CloudflareOutput.SettledExactly | internal/providers/cloudflare/output.go:451-459 | hostname and answer are fixed by a second normalisation exactly if they end in no dot and no space |
| CloudflareReplan.ServedFate | internal/runtime/reconcile_plan.go:94-147 | planning again keeps an applied record if its listed form has the desired key, updates it if only the hostname agrees, and creates it again otherwise |
| CloudflareReplan.AppliedFate | internal/runtime/reconcile_plan.go:94-172 | the fate of an applied record, whatever is desired now: kept, updated or deleted when it is listed under its hostname and key, else created a second time or forgotten |
| CloudflareReplan.ReplanIsEmptyExactly | internal/providers/cloudflare/output.go:97-107 | when everything desired has been applied, the next plan is empty exactly if every desired key is listed |
| CloudflareReplan.CompletedNameIsListed | internal/providers/cloudflare/output.go:97-107 | for completed names that means a hostname in the zone and an answer that planner and output normalise alike |
| CloudflareReplan.CompletedReplanIsEmptyExactly | internal/providers/cloudflare/output.go:97-107 | for completed names the next plan is empty exactly if every desired hostname is the zone or lies in it, with an answer that planner and output normalise alike |
| CloudflareReplan.CompletedIsForgottenExactly | internal/runtime/reconcile_plan.go:156-172 | no longer desired, a completed name is forgotten but left behind exactly if the hostname is neither the zone nor in it |
| CloudflareReplan.SecondIsNoMatch | internal/providers/cloudflare/output.go:141-150 | with a second equivalent record the listing has no single match |
| CloudflareReplan.SingleLabelIsCreatedAgain | internal/providers/cloudflare/output.go:134-160 | `web` in the zone `example.com`, created and owned: every next plan is to create it again |
| Scenarios.CreateAgain | internal/providers/cloudflare/output.go:134-160 | that create is absorbed: the identifier of the existing record, and nothing changed |
| Scenarios.CreateAfterChange | internal/providers/cloudflare/output.go:134-150 | after a changed answer there are two records, and the next duplicate is refused |
| AtomicFile.FileSystem.MissingDirChain | internal/state/atomic_file.go:68-90 | the missing directories of the path, from the root downwards |
| AtomicFile.FileSystem.SyncNewDirs | internal/state/atomic_file.go:19-23 | every created directory entry becomes durable |
| AtomicFile.RenamedIsSafe | internal/state/atomic_file.go:57-59 | the rename adds the complete new file to what a crash may leave, and nothing else |
| AtomicFile.FileSystem.AtomicWriteFile | internal/state/atomic_file.go:10-66 | a crash at any step leaves old or complete new contents; success is durable, and comes exactly if no call fails and nothing is in the way; failure before the final sync leaves the old contents, and no temporary file unless its removal failed |
| AtomicFile.FileSystem.WriteInDir | internal/state/atomic_file.go:25-65 | the reported stage is the first call that failed, in the order create, chmod, write, sync, close, rename, sync; success takes these seven calls |
| Labels.SplitThenJoin | internal/providers/docker/labels.go:127 | joining the parts of a split gives the text back |
| Labels.CollectAliases | internal/providers/docker/labels.go:122-170 | explicit aliases in order, then exactly the other named ones ascending, else the fallback |
| Labels.AliasesAreDetermined | internal/providers/docker/labels.go:142-162 | the order in which labels are visited does not matter |
| Published.NamedPortExactly | internal/providers/docker/labels.go:218-235 | a key names an alias exactly if it is `proxy.`, a plain name and `.port` |
| Published.AliasesExactly | internal/providers/docker/labels.go:122-170 | on the labels: the parts of `proxy.aliases` with an own, indexed or wildcard port at their first mention, then the other named ports ascending; if there are none, the container's name when a wildcard or indexed port is set |
| Published.ItoaExactly | internal/providers/docker/labels.go:288-290 | the decimal form of an index |
| Published.ComponentsNormalizeAlike | internal/runtime/reconcile_keys.go:9-12 | planner, source and Cloudflare output normalise alike: lower case, trimmed, one trailing dot removed |
| Labels.HasRelevantWatchLabels | internal/providers/docker/source.go:267-289 | true exactly for labels that are relevant |
| Labels.ReadersAgree | internal/providers/docker/source.go:267-289 | relevant and "not excluded with some alias" agree exactly unless a port is only indexed or wildcard and no fallback name exists |
| Derivation.DeriveDesiredRecords | internal/providers/docker/labels.go:25-98 | the records of all aliases with hostname and target, sorted |
| Published.DerivedExactly | internal/providers/docker/labels.go:25-118 | on the labels: one record for each alias with hostname and target and no others; its own, indexed or wildcard `host` label or the default target; completed with the base domain unless dotted; output by `proxy.dns`; nothing when excluded or switched off |
| Derivation.DerivedIsWatched | internal/providers/docker/source.go:267-289 | no container that yields a record is filtered out of lifecycle events |
| Derivation.ListDesired | internal/providers/docker/source.go:73-132 | the records of all running containers, sorted; a failed listing is temporary unless it was cancelled |
| Published.ListingExactly | internal/providers/docker/source.go:73-132 | a source lists exactly what its running containers publish |
| Derivation.ListingIsDetermined | internal/providers/docker/source.go:127-129 | with distinct container identifiers and fields without `|` the list is unique, so the last one of a lineage is too |

## Left out

- Lower-casing is modelled for ASCII letters; other letters are left as they are. White space is the full Unicode set.
- `AppliedIndex` of the plan is never read by the code and is not modelled.
- The main loop's count of coalesced hints only appears in log lines and is not modelled.
- HTTP, the Cloudflare and Docker client libraries, JSON and TOML: an abstract remote, event stream and store cell stand
  for them. AdGuard is an output that exposes no identifiers.
- Configuration loading, validation, the command line, logging, diagnostics and redaction: they do not change the state.
- Timeouts are failed calls. Cancellation during a pass is a permanent failure of the call it hits; the retry loop's own
  cancellation exits are left out.
- A call that took effect remotely but reported failure, and a process that dies between a successful call and the save:
  the code does not recover ownership there, and nothing is claimed.
- Ownership.OnlyOwnedRecordsAreTouched: an identifier that Cloudflare's duplicate recovery returns counts as given to the
  daemon, also when an operator had created that record; the code adopts it.
- Retries.Reconcile: what the sources desire is fixed over the retries, as is everything outside the daemon.
- Backoff.RetryWithBackoff: while the budget covers the sleep, the clock has advanced at least by the sleep that was
  requested, and elapsed time plus delay fits in 64 bits; the longest interval is within half the 64-bit range, and so is
  the initial one unless it exceeds the budget (`Backoff.RetryDelayCollapses` and `Backoff.LoopsDelayAlike` show what
  happens beyond: the delay turns negative, the loop sleeps no more, and only the clock ends it).
- Wakeups.NoLostWakeup: obligations start when an event is read; events before the subscription is open are not seen.
- Debounce.ReconcilesHaveCauses: time is not modelled; the timer fires, and a reconnect wakes, at any moment after it was
  set.
- Which engine events count as lifecycle events is a parameter of the reader's step, but for the container's labels.
- Progress.InternalStepsEnd: no fairness is assumed, so that a goroutine that can move does move is not claimed.
- CloudflareOutput.CloudflareOutput.Create: the service is taken to store a single label, or a name inside the zone, under
  an equivalent name, and identifiers are trimmed, distinct and not blank. For a dotted name from outside the zone nothing
  is claimed about the record (`Cloudflare.FullNameIsEquivalent` shows why), nor for hostnames and answers that still end
  in a dot or a space when normalised (`CloudflareOutput.SettledExactly`). Mutex and concurrency of the cache are not
  modelled.
- Labels.ReadersAgree: the attributes of a lifecycle event are taken to be the container's labels.
- AtomicFile.FileSystem.AtomicWriteFile: paths are absolute and clean, and reading a directory through a symbolic link is
  not modelled.
