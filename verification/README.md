# Verified models of the knext platform

The operator that runs Next.js apps on Knative, the client library that wakes a sleeping database,
the control-file tool that restores one, and the statistics and SQL helpers around them, as models
whose central promises are proved for every input, every run and every interleaving.

- **Control file and CRC** (`Crc32c`, `LittleEndian`, `ControlFormat`, `Utf8Law`, `ControlLayout`,
  `ControlCodec`, `WalSegments`):
  the safekeeper control-file codec of `skctl.py`, printer, parser and checksum, and its LSN arithmetic.
  The round trip holds both ways, byte for byte, and damage inside 32 consecutive bits is always detected.
- **Shared** (`Wrappers`, `Arithmetic`, `FiniteSets`): results, products and set sizes.
- **Rank statistics** (`RankSum`, `NullDistribution`, `NullVariance`, `Holm`): mid-rank loops against pairwise counting,
  the exact null distribution against sets of interleavings, Holm's adjustment against the step-down
  procedure.
- **The operator's platform layer** (`RolloutLimiter`, `RolloutPasses`, `PlatformDefaults`, `StatusVerdict`,
  `VerdictLaws`, `VerdictBuilder`, `PlatformRun`, `PlatformLaws`, `PlatformRates`, `PlatformReconciler`,
  `DeployState`): one reconcile pass merges an
  app's settings over the platform's, may hold the app, may queue it for a slot, may render its Service,
  and computes a status verdict. `PlatformRun` is the state machine of whole runs and carries the main
  results: Honest Ready, slot accounting and idempotence; `PlatformRates` carries the rollout cap over to
  the Services. `VerdictLaws` and `PlatformLaws` say what the verdict, the merge, the gates and a pass come to,
  in terms of what was observed and with every constant written out. `VerdictBuilder` and `PlatformReconciler` are
  the same code in its own, imperative form, proved equal to the specification.
- **Environment and warm windows** (`Dictionary`, `DecimalText`, `EnvAssembly`, `WarmWindows`): the
  rendered container's environment list, and the warm-schedule floor and requeue.
- **Database wake** (`WakeGate`, `WakeRetry`): the single-flight gate as interleaved steps, and the
  bounded retry inside it.
- **SQL and quantities** (`SqlLexer`, `SqlQuoting`, `SqlStatements`, `SqlEmitters`, `QuantityBounds`):
  quoting read back by a model of the PostgreSQL lexer, the statements built with it, and the exponent
  scanner against the number it bounds.

## Where the code and its documentation disagree

The models follow the code; where a promise fails, the condition under which it holds is proved.

- `platform_rollout.go` promises at most `maxAppsPerMinute` re-renders a minute. Three things break it. The
  spacing is rounded down, so a rate that does not divide a minute is issued more slots than that in it
  (`RolloutLimiter.RateExact`). A slot is only a permission: apps that come back late pass together,
  up to ten minutes' worth at one instant (`RolloutPasses.AllAtOnce`), and the operator itself brings a
  queued app back half a second late. And a slot keeps the rate it was issued at: lowering the rate, or
  deleting a platform with a higher one, leaves the slots already given out too close together
  (`RolloutPasses.LoweredRate`). `RolloutPasses.CapExact` proves that the promise holds, over the runs in
  which no app passes more than d after its slot and no open slot was issued at a rate above q, if and only
  if the rate divides a minute, d is zero and q is the rate in force. `PassesPerMinute` and `PassesEver` say
  what holds otherwise, and `PlatformRates` what that means for the Services, whatever becomes of the platform. After
  a restart of the operator the count starts afresh, as documented.
- `deploy_state.go` calls `lastSuccessfulDeployTime` the time the current revision first reached Ready.
  A revision first recorded on a pass that found the Service not Ready keeps the previous time, and one
  that comes back Ready gets a new time: `DeployState.FirstReady` says exactly when the recorded time is
  the documented one.
- The verdict is written to be idempotent. A change held back at generation 0 before anything was
  reconciled is forgotten on the second pass; `StatusVerdict.VerdictFixpoint` proves this is the only
  exception. The API server starts generations at 1.
- Re-renders are paced by what the status last recorded. When the status write is lost after the Service
  write, a re-render can pass the limiter: `PlatformRun.EscapesExactly` says exactly when,
  `PlatformRun.EscapeRun` is such a run, and `PlatformRun.SlotAccounting` proves that no run of
  atomic passes gets there.

## How to read the models

Times and durations are integers in nanoseconds (milliseconds in `WakeRetry`); the zero time is 0.
Bytes are `bv8`, the CRC register is `bv32`, half ranks are doubled integers, p-values are reals.
Hashes are the hashed values themselves. A status message is the fact it is printed from, so two
messages are equal exactly when those facts are. Lemmas switch automatic induction off, so each proof is
exactly what is written. A pass's remaining observations (Knative's reports,
the image cache, the CNI probe, the exposure list) are arguments, the same for every claim.

## Model

| member | source | states |
|---|---|---|
| `Crc32c.Crc32c` | packages/scale-zero-pg/deploy/skctl.py:80-87 | the nested bit loop leaves the complement of the register fed with every byte |
| `Crc32c.FirstWordComplemented` | packages/scale-zero-pg/deploy/skctl.py:81-87 | the first 32 bits of any text are complemented before the division, and the remainder after it |
| `Crc32c.CheckValue` | packages/scale-zero-pg/deploy/skctl.py:80-87 | the checksum of the digits 1 to 9 is 0xE3069283, the algorithm's published check value |
| `Crc32c.StepInjective` | packages/scale-zero-pg/deploy/skctl.py:85 | one bit step of the register loses nothing: different words step to different words |
| `Crc32c.RegisterConcat` | packages/scale-zero-pg/deploy/skctl.py:80-87 | feeding two pieces one after the other is feeding their concatenation |
| `Crc32c.RegisterInjective` | packages/scale-zero-pg/deploy/skctl.py:80-87 | different registers stay different over any common text |
| `Crc32c.FourBytes` | packages/scale-zero-pg/deploy/skctl.py:82-86 | four bytes act as one exclusive-or of their little-endian word followed by 32 steps |
| `Crc32c.ResidueValue` | packages/scale-zero-pg/deploy/skctl.py:80-87 | the constant a checksummed blob leaves behind (section 12.1 of RFC 3720) |
| `Crc32c.SealedResidue` | packages/scale-zero-pg/deploy/skctl.py:157-158 | a blob ends in its own little-endian checksum if and only if the register ends at that constant |
| `Crc32c.RegisterBits` | packages/scale-zero-pg/deploy/skctl.py:80-87 | feeding bytes is feeding their bits one by one, lowest bit of each byte first |
| `Crc32c.PackedBits` | packages/scale-zero-pg/deploy/skctl.py:82-86 | up to 32 bits, starting anywhere in a byte, act as one exclusive-or followed by a step for each |
| `Crc32c.BurstDetected` | packages/scale-zero-pg/deploy/skctl.py:80-87 | two blobs of equal length that both pass the check and differ only inside 32 consecutive bits, wherever they start and including across body and trailer, are the same |
| `LittleEndian.FromToBytes` | packages/scale-zero-pg/deploy/skctl.py:110-136 | a number that fits its width is read back from its bytes |
| `LittleEndian.ToFromBytes` | packages/scale-zero-pg/deploy/skctl.py:139-204 | bytes are printed back from the number they stand for |
| `LittleEndian.ByteAt` | packages/scale-zero-pg/deploy/skctl.py:110-136 | the k-th byte of a number is its k-th digit to the base 256, lowest first |
| `ControlFormat.RecordPrinted` | packages/scale-zero-pg/deploy/skctl.py:110-136 | parsing a printed record, whatever follows it, gives the record and exactly the rest |
| `ControlFormat.RecordParsed` | packages/scale-zero-pg/deploy/skctl.py:160-200 | whatever parses as a record is that record printed, followed by the rest |
| `ControlFormat.UnpackPack` | packages/scale-zero-pg/deploy/skctl.py:110-136 | unpacking a packed record gives the record back, for every record that fits the format |
| `ControlFormat.PackUnpack` | packages/scale-zero-pg/deploy/skctl.py:139-204 | for every byte string the parser accepts, packing its result gives exactly those bytes |
| `ControlFormat.AcceptedExactlyWhenPacked` | packages/scale-zero-pg/deploy/skctl.py:139-204 | the accepted files are exactly the images of packing |
| `ControlFormat.DamageRejected` | packages/scale-zero-pg/deploy/skctl.py:139-145 | damage confined to 32 consecutive bits of an accepted file is always rejected |
| `ControlLayout.FileLayout` | packages/scale-zero-pg/deploy/skctl.py:110-136 | the byte offset and width of every field of a packed file, the header bytes EF CE FE CA 09 00 00 00 written out |
| `ControlLayout.Refusals` | packages/scale-zero-pg/deploy/skctl.py:146-158 | which files are refused as too short, for the magic number, for the version and for the checksum, in this order |
| `Utf8Law.ValidExactlyWhenEncoded` | packages/scale-zero-pg/deploy/skctl.py:170-175 | a string is accepted exactly when its bytes encode a sequence of Unicode scalar values (section 3 of RFC 3629) |
| `ControlCodec.PackControl` | packages/scale-zero-pg/deploy/skctl.py:110-136 | the growing buffer ends as the printed, checksummed record, or the call fails exactly when a field does not fit |
| `ControlCodec.UnpackControl` | packages/scale-zero-pg/deploy/skctl.py:139-204 | the moving cursor parses exactly what the format says, never reads the trailer, terminates on any counts and rejects leftovers |
| `ControlCodec.Cursor.TakeNumber` | packages/scale-zero-pg/deploy/skctl.py:160-168 | reads one little-endian number or fails without moving past the end |
| `ControlCodec.Cursor.TakeText` | packages/scale-zero-pg/deploy/skctl.py:170-175 | reads one length-prefixed string, failing on truncation and on invalid UTF-8 |
| `WalSegments.NameDecodes` | packages/scale-zero-pg/deploy/skctl.py:98-107 | the name of an LSN has 24 digits exactly when the LSN is not negative and its log file has a number of eight, which any size that divides 4 GiB gives every 64-bit LSN; then it decodes back to the segment number |
| `WalSegments.NameLaw` | packages/scale-zero-pg/deploy/skctl.py:98-107 | for sizes that divide 4 GiB the name is timeline 1, the upper half of the LSN, and the segment its lower half is in |
| `WalSegments.NameOrder` | packages/scale-zero-pg/deploy/skctl.py:102-107 | dictionary order of 24-digit segment names is segment order, and equal names mean equal segments |
| `WalSegments.TruncationExact` | packages/scale-zero-pg/deploy/skctl.py:254-264 | the printed name is a name exactly when the LSN is above 0 and the log file of the byte before it has a number of eight digits; then the named segment start plus the offset is exactly the LSN, with the offset always in 1..segment size |
| `WalSegments.SegmentRange` | packages/scale-zero-pg/deploy/skctl.py:244-251 | lists every segment from the first to the last, once each and in order; the names of 24 digits decode to them, and all have 24 for a size that divides 4 GiB |
| `WalSegments.CraftLaw` | packages/scale-zero-pg/deploy/skctl.py:215-236 | the crafted record field by field: the end, its start no later than the end, the 16 MiB block, one history entry, no partial backup |
| `WalSegments.CraftRoundTrip` | packages/scale-zero-pg/deploy/skctl.py:215-236 | a crafted record packs exactly when its arguments fit, parses back, never starts above its end, and backs up to the 16 MiB block start |
| `RankSum.UStat` | scripts/bench-cold-start-phases/stats.py:25-30 | the nested loops compute the pairwise count, win 1 and tie one half |
| `RankSum.MidRanks` | spikes/zone-functions-coldstart/bench/analyze.ts:88-98 | every position gets the mid-rank its value has in the pool, and tie is the sum of t^3 - t over the groups |
| `RankSum.RankStatistic` | spikes/zone-functions-coldstart/bench/analyze.ts:84-102 | twice the U of the mid-rank loops is the doubled pairwise count, ties included |
| `RankSum.RankSumIsPairs` | spikes/zone-functions-coldstart/bench/analyze.ts:99-102 | rank sum minus its minimum is the pair count, for every pair of samples |
| `RankSum.Complement` | scripts/bench-cold-start-phases/stats.py:25-30 | the two samples' statistics share out all n*m pairs |
| `RankSum.TieSumBound` | spikes/zone-functions-coldstart/bench/analyze.ts:94-95 | the tie term lies in 0..n^3 - n and reaches it exactly when all values tie |
| `RankSum.VarianceSign` | spikes/zone-functions-coldstart/bench/analyze.ts:103-106 | for n >= 2 the corrected variance is never negative, and with both samples non-empty it is zero exactly when all values tie |
| `NullVariance.VarianceOfU` | spikes/zone-functions-coldstart/bench/analyze.ts:103-106 | without ties the variance divided by is the mean squared distance of U from n*m/2 over all interleavings |
| `NullVariance.MeanOfU` | spikes/zone-functions-coldstart/bench/analyze.ts:103-106 | the mean of U over all interleavings is n*m/2 |
| `NullDistribution.UIsWins` | scripts/bench-cold-start-phases/stats.py:25-30 | the U of an interleaving is the number of pairs in which an a comes after a b |
| `NullDistribution.CountIsWords` | scripts/bench-cold-start-phases/stats.py:41-46 | count(n, m, k) is the number of interleavings of n a's and m b's whose U is k |
| `NullDistribution.CountsSumToChoose` | scripts/bench-cold-start-phases/stats.py:48 | the counts over all k add up to C(n + m, n) |
| `NullDistribution.CountSymmetric` | scripts/bench-cold-start-phases/stats.py:49 | the counts are symmetric under k to n*m - k |
| `NullDistribution.CountCache.Get` | scripts/bench-cold-start-phases/stats.py:40-46 | the memoised recursion returns the count and keeps every cached entry right |
| `NullDistribution.ExtremeSize` | scripts/bench-cold-start-phases/stats.py:49-51 | the interleavings at least as extreme as a tail value are counted by doubling one tail, or are all of them |
| `NullDistribution.ObservedU` | scripts/bench-cold-start-phases/stats.py:33-35 | for samples without ties the pairwise statistic is the U of the observed interleaving, which is the number of pairs a wins there |
| `NullDistribution.TieFreeBySize` | scripts/bench-cold-start-phases/stats.py:36 | the pool has as many distinct values as values exactly when nothing ties |
| `NullDistribution.ExactP` | scripts/bench-cold-start-phases/stats.py:33-52 | without ties the returned p is the share of equally likely interleavings at least as extreme as the observed one |
| `Holm.HolmAdjust` | scripts/bench-cold-start-phases/gke/compare.py:72-78 | every adjusted value is the Holm value of its hypothesis, determined by the p-values alone, and monotone in p |
| `Holm.RunningIsHolm` | scripts/bench-cold-start-phases/gke/compare.py:74-77 | the running maximum over the sorted order is the largest corrected value among hypotheses with p no larger, capped at 1 |
| `Holm.HolmMonotone` | scripts/bench-cold-start-phases/gke/compare.py:72-78 | equal p-values get equal results whatever order the sort leaves them in |
| `Holm.StepDown` | scripts/bench-cold-start-phases/gke/compare.py:72-78 | for every alpha < 1 the adjusted value is at most alpha exactly when the sequential step-down procedure rejects |
| `RolloutLimiter.Limiter.Reserve` | packages/kn-next-operator/internal/controller/platform_rollout.go:65-106 | sweeps stale reservations, lets a due one through once, and issues at most one slot, leaving exactly the state and wait specified |
| `RolloutLimiter.Limiter.Release` | packages/kn-next-operator/internal/controller/platform_rollout.go:117-125 | forgets one app's reservation and nothing else |
| `RolloutLimiter.PendingIsPromised` | packages/kn-next-operator/internal/controller/platform_rollout.go:115-133 | over every run, the outstanding reservations are those of exactly the apps that were told to wait and have not passed, been released or gone stale since, each with the slot it was told |
| `RolloutLimiter.SlotsSpaced` | packages/kn-next-operator/internal/controller/platform_rollout.go:83-105 | each slot is at least floor(60e9 / r) ns after the one before it, r being the rate it was issued at, whatever times and rates the callers pass |
| `RolloutLimiter.RateBound` | packages/kn-next-operator/internal/controller/platform_rollout.go:28-41 | a half-open minute none of whose slots was issued at a rate above p is issued at most p slots if p divides a minute, else at most p + 1 while p^2 is within a minute |
| `RolloutLimiter.RateExact` | packages/kn-next-operator/internal/controller/platform_rollout.go:28-46 | in every run a half-open minute none of whose slots was issued at a rate above p is issued at most p slots, if and only if p divides a minute |
| `RolloutPasses.UsedOnce` | packages/kn-next-operator/internal/controller/platform_rollout.go:83-90 | in any window of slots, those used by a pass and those still reserved are together no more than those issued |
| `RolloutPasses.PassesTiming` | packages/kn-next-operator/internal/controller/platform_rollout.go:74-90 | nobody passes before the slot or more than ten minutes after it |
| `RolloutPasses.PassesWithin` | packages/kn-next-operator/internal/controller/platform_rollout.go:65-106 | if no app passes more than d after its slot, the passes of a window are no more than the slots issued from d before it |
| `RolloutPasses.PassesPerMinute` | packages/kn-next-operator/internal/controller/platform_rollout.go:28-46 | however the rate changes: if no app passes more than d after its slot and no slot from d before a half-open minute on was issued at a rate above p, the minute sees at most p re-renders and one more for each interval begun of d when p divides a minute, and one more than that for every other p with p^2 within a minute |
| `RolloutPasses.PassesEver` | packages/kn-next-operator/internal/controller/platform_rollout.go:58-61 | however late apps come back, at most 11 p when p divides a minute, and 11 (p + 1) for the other p, under the same bound on the rates of the slots |
| `RolloutPasses.AllAtOnce` | packages/kn-next-operator/internal/controller/platform_rollout.go:83-90 | a run at the one rate p in which 10 p + 1 apps pass at one instant |
| `RolloutPasses.LoweredRate` | packages/kn-next-operator/internal/controller/platform_rollout.go:83-90 | for every p below q a run, with nobody late, that lowers the rate from q to p and sees more than p re-renders in the minute after: a slot once given out keeps the distance of the old rate |
| `RolloutPasses.CapExact` | packages/kn-next-operator/internal/controller/platform_rollout.go:28-46 | the documented cap of p re-renders a minute while the rate in force is p holds for every run in which no app passes more than d after its slot and no open slot was issued at a rate above q, if and only if p divides a minute, d is zero and q is p; the runs at one rate and those with one change of rate already decide it |
| `RolloutLimiter.RunOrderly` | packages/kn-next-operator/internal/controller/platform_rollout.go:65-106 | no two apps ever hold the same slot, and none is later than the last one issued, at whatever rates of no more than one a nanosecond |
| `RolloutLimiter.ReservationKept` | packages/kn-next-operator/internal/controller/platform_rollout.go:65-106 | an app's reservation survives any traffic of the others that does not find it stale |
| `RolloutLimiter.WaitThenPass` | packages/kn-next-operator/internal/controller/platform_rollout.go:33-38 | an app told to wait is told the remaining time when early and passes exactly once at its slot |
| `RolloutLimiter.FirstAllowed` | packages/kn-next-operator/internal/controller/platform_rollout.go:92-105 | over every run, a newcomer's slot is the earliest that is not before now and a p-th of a minute after the last slot issued; after that long, or before any slot, the answer is 0 |
| `RolloutLimiter.NewAnswer` | packages/kn-next-operator/internal/controller/platform_rollout.go:92-105 | the same of one call at any rate, with ten a minute for none: every allowed time is no earlier than the slot |
| `RolloutLimiter.HeldAnswer` | packages/kn-next-operator/internal/controller/platform_rollout.go:83-90 | an app not more than 600 s past its slot is told the rest of its wait, issues nothing and moves nobody |
| `RolloutLimiter.OthersKeep` | packages/kn-next-operator/internal/controller/platform_rollout.go:74-78 | every other reservation survives a call exactly when it is not more than 600 s overdue |
| `PlatformDefaults.ResolveEffective` | packages/kn-next-operator/internal/controller/platform_defaults.go:95-199 | the field-by-field merge with its notes of inherited fields computes the specified merge, sorted report included |
| `PlatformDefaults.Precedence` | packages/kn-next-operator/internal/controller/platform_defaults.go:126-191 | each field comes from the app, else the platform, else the built-in, and is reported exactly when it came from the platform |
| `PlatformDefaults.InheritedExactly` | packages/kn-next-operator/internal/controller/platform_defaults.go:86-90 | the report lists, in order and once each, exactly the fields the platform supplied |
| `PlatformDefaults.NothingInherited` | packages/kn-next-operator/internal/controller/platform_defaults.go:86-199 | a platform from which an app inherits nothing leaves its merged values at the built-in merge |
| `PlatformLaws.MergeLaw` | packages/kn-next-operator/internal/controller/platform_defaults.go:126-191 | the ten merged values against the built-in table, every constant written out |
| `PlatformLaws.BudgetLaw` | packages/kn-next-operator/internal/controller/platform_defaults.go:119-170 | the budget is the platform's own when positive, else 80; a resource counts as the platform's exactly when the app leaves one of the four open and the platform fills it |
| `PlatformLaws.ReportLaw` | packages/kn-next-operator/internal/controller/platform_defaults.go:86-199 | the reported paths, in dictionary order, name each of the ten fields exactly when the app leaves it open and the platform fills it |
| `PlatformDefaults.Notes.Pick` | packages/kn-next-operator/internal/controller/platform_defaults.go:141-151 | app over platform over built-in for one resource, noting a platform value |
| `PlatformDefaults.Notes.PickPointer` | packages/kn-next-operator/internal/controller/platform_defaults.go:176-187 | the same for an optional knob, with unset as the last resort |
| `PlatformDefaults.SortFields` | packages/kn-next-operator/internal/controller/platform_defaults.go:196 | sorts the noted fields without losing or adding one |
| `StatusVerdict.VerdictFixpoint` | packages/kn-next-operator/internal/controller/status_verdict.go:269-908 | computing and applying the verdict again on unchanged inputs leaves the ordered condition list identical, transition times included, and emits nothing, if and only if no change is dropped at generation 0 before anything was reconciled |
| `StatusVerdict.QueuedVerdict` | packages/kn-next-operator/internal/controller/status_verdict.go:878-905 | the fixpoint for a queued app: a shorter wait changes nothing but the requeue |
| `StatusVerdict.DropSticks` | packages/kn-next-operator/internal/controller/status_verdict.go:221-242 | a held-back change is still held back when judged again: the held Reconciling condition keeps the last reconciled generation |
| `StatusVerdict.DiagnosisSticks` | packages/kn-next-operator/internal/controller/status_verdict.go:404-454 | the diagnosis of a service that is not Ready survives being applied, the kept pin verdict included |
| `StatusVerdict.LostDropMoves` | packages/kn-next-operator/internal/controller/status_verdict.go:228-242 | the exception is real: at generation 0 with nothing reconciled the second verdict forgets the drop |
| `StatusVerdict.StallsPersist` | packages/kn-next-operator/internal/controller/nextapp_controller.go:226-246 | a stall once reported is reported at every later time while the service says the same |
| `StatusVerdict.RollUpsAgree` | packages/kn-next-operator/internal/controller/status_verdict.go:318-470 | Ready is True exactly when the Service is Ready and nothing is held back, Degraded is its opposite, Reconciling is True exactly for a held-back change |
| `StatusVerdict.RequeueBound` | packages/kn-next-operator/internal/controller/status_verdict.go:468-479 | an app that is not Ready is looked at again within 30 s, and a queued one no later than half a second past its slot |
| `StatusVerdict.FindAfterVerdict` | packages/kn-next-operator/internal/controller/nextapp_controller.go:866-874 | after removals and settings in order, a lookup gives each type's decision merged onto its previous condition |
| `StatusVerdict.FindAfterSet` | packages/kn-next-operator/internal/controller/nextapp_controller.go:872-874 | setting a condition changes the lookup of its own type only, and keeps the transition time while the status stays |
| `StatusVerdict.SettledApply` | packages/kn-next-operator/internal/controller/nextapp_controller.go:866-879 | a verdict whose every decision is already in place changes nothing in the list |
| `VerdictLaws.ReconcilingLaw` | packages/kn-next-operator/internal/controller/status_verdict.go:318-336 | Reconciling is False with the current generation, or True for a change held back, with the field and fault that hold it and the generation last reconciled |
| `VerdictLaws.ServingLaw` | packages/kn-next-operator/internal/controller/status_verdict.go:338-370 | an app that serves, with no change held back, is Ready and not Degraded for its generation |
| `VerdictLaws.HeldLaw` | packages/kn-next-operator/internal/controller/status_verdict.go:338-356 | a change held back makes Ready False and Degraded True, and the message names the previous Service's fault if it does not serve |
| `VerdictLaws.DiagnosisLaw` | packages/kn-next-operator/internal/controller/status_verdict.go:371-470 | an app that does not serve reports, in this order, a missing pin it could not look up again, a missing pin or an unprogrammed ingress after 120 seconds, or what Knative says, with the defaults written out |
| `VerdictLaws.DatabaseLaw` | packages/kn-next-operator/internal/controller/status_verdict.go:289-304 | DatabaseReady is there, and True, exactly when a database is bound, and names its Secret |
| `VerdictLaws.RevalidationLaw` | packages/kn-next-operator/internal/controller/status_verdict.go:481-528 | RevalidationDeferred is True exactly for a kafka queue, with the inert consumer told from the missing one |
| `VerdictLaws.CollisionLaw` | packages/kn-next-operator/internal/controller/status_verdict.go:530-605 | EnvMapCollision is True exactly when one of the three lists holds a name; the reason tells which list decides |
| `VerdictLaws.ImageCacheLaw` | packages/kn-next-operator/internal/controller/status_verdict.go:620-708 | ImageCacheReady is True exactly when prewarming is on, nothing failed and ready equals a positive desired; it is there exactly when prewarming is on or a clean-up failed |
| `VerdictLaws.PolicyLaw` | packages/kn-next-operator/internal/controller/status_verdict.go:725-793 | NetworkPolicyEnforced is there exactly when a policy is asked for, True for an enforcer found, False for none, Unknown otherwise |
| `VerdictLaws.ExposureLaw` | packages/kn-next-operator/internal/controller/status_verdict.go:795-829 | PrivateExposure is there exactly when a private app is seen published; an unreadable list changes nothing |
| `VerdictLaws.PodsLaw` | packages/kn-next-operator/internal/controller/status_verdict.go:831-876 | PodCreationBlocked is there exactly when pods are seen refused; an unknown or sticky read changes nothing, the same refusal keeps its first message |
| `VerdictLaws.PlatformLaw` | packages/kn-next-operator/internal/controller/status_verdict.go:878-905 | PlatformDefaultsApplied is False for an invalid merge or a platform not accepted, Unknown for a queued app, True otherwise, with its five reasons |
| `VerdictLaws.TransitionLaw` | packages/kn-next-operator/internal/controller/nextapp_controller.go:872-874 | a condition's transition time moves, to the time of the pass, exactly when its status does |
| `VerdictLaws.OrderLaw` | packages/kn-next-operator/internal/controller/status_verdict.go:269-908 | new conditions enter the list in the one order in which they persist |
| `VerdictLaws.OthersLaw` | packages/kn-next-operator/internal/controller/nextapp_controller.go:866-874 | conditions the verdict does not own are left alone |
| `VerdictLaws.EventsLaw` | packages/kn-next-operator/internal/controller/status_verdict.go:404-905 | the events of a verdict are exactly the alarms its conditions raise that were not known before, each named after its condition; only an expected collision does not warn |
| `VerdictLaws.RequeueLaw` | packages/kn-next-operator/internal/controller/status_verdict.go:468-905 | the requeue is the soonest of the reasons there are, 30 s, 120 s or half a second past the slot, and none when there is none |
| `VerdictBuilder.ComputeStatusVerdict` | packages/kn-next-operator/internal/controller/status_verdict.go:269-908 | the verdict record grown section by section is the decision of every condition type in persisted order, with its events and requeue |
| `VerdictBuilder.Builder.Explain` | packages/kn-next-operator/internal/controller/status_verdict.go:371-454 | the overwritten reasons and messages of a service that is not Ready end as the most specific diagnosis, with an event only on entry |
| `VerdictBuilder.Builder.AddReconciling` | packages/kn-next-operator/internal/controller/status_verdict.go:324-336 | the Reconciling section, generation frozen for a held-back change |
| `VerdictBuilder.Builder.AddReadiness` | packages/kn-next-operator/internal/controller/status_verdict.go:338-470 | the Ready and Degraded sections and the bounded requeue |
| `VerdictBuilder.Builder.AddEnvCollision` | packages/kn-next-operator/internal/controller/status_verdict.go:530-605 | the collision section: alarming unless every collision is an exempt name |
| `VerdictBuilder.Builder.AddImageCache` | packages/kn-next-operator/internal/controller/status_verdict.go:620-708 | the image-cache section, its requeues and its event on entry |
| `VerdictBuilder.Builder.AddPolicy` | packages/kn-next-operator/internal/controller/status_verdict.go:725-793 | the network-policy section with its three outcomes |
| `VerdictBuilder.Builder.AddExposure` | packages/kn-next-operator/internal/controller/status_verdict.go:795-829 | the exposure section: an unreadable list carries the prior condition |
| `VerdictBuilder.Builder.AddPods` | packages/kn-next-operator/internal/controller/status_verdict.go:831-876 | the pod-creation section: the same block on the same revision keeps its first message and stays quiet |
| `VerdictBuilder.Builder.AddPlatform` | packages/kn-next-operator/internal/controller/status_verdict.go:878-905 | the platform section, its transition events and the queued requeue |
| `VerdictBuilder.StatusWriter.SetStatusCondition` | packages/kn-next-operator/internal/controller/nextapp_controller.go:872-874 | sets in place when the type is present, appends otherwise |
| `VerdictBuilder.StatusWriter.ApplyStatusVerdict` | packages/kn-next-operator/internal/controller/nextapp_controller.go:860-880 | emits, removes, sets in order, and writes exactly when the conditions or the rest of the status differ from what was observed |
| `PlatformRun.HonestReady` | packages/kn-next-operator/internal/controller/nextapp_controller.go:367-807 | over every run of edits, platform changes, operator restarts, failed and completed passes: Ready for the current generation means the live Service, if any, was last rendered from that generation's own spec |
| `PlatformRun.DroppedStaysNotReady` | packages/kn-next-operator/internal/controller/status_verdict.go:205-242 | a change not yet applied is never reported Ready while no pass is let through, and the Service stays what it was or is gone |
| `PlatformRun.SlotAccounting` | packages/kn-next-operator/internal/controller/platform_state.go:247-300 | over runs of atomic passes, a pass that changes the existing Service of an app whose spec has not moved was granted a slot in that pass, and a platform edit that leaves the merged values alone neither touches the Service nor asks |
| `PlatformRates.RunMoves` | packages/kn-next-operator/internal/controller/platform_state.go:260-300 | over whole runs the limiter is moved by exactly the calls the passes have made since the operator last started |
| `PlatformRates.ChangesArePasses` | packages/kn-next-operator/internal/controller/platform_state.go:247-300 | over runs of atomic passes, every change of the Service of an app whose spec has not moved is a pass of the limiter at that moment |
| `PlatformRates.ChangesPerMinute` | packages/kn-next-operator/internal/controller/platform_rollout.go:28-49 | over runs of atomic passes in which platforms come, go and change their rate and the operator restarts: since its last start, a half-open minute sees no more platform-made Service changes than the bound of `PassesPerMinute`, for the rates its slots were issued at |
| `PlatformRates.CallsNoFaster` | packages/kn-next-operator/internal/controller/platform_state.go:112-118 | no slot is issued at a rate that was never in force when a pass was made |
| `PlatformRates.ChangesEver` | packages/kn-next-operator/internal/controller/platform_rollout.go:44-61 | however late apps come back, never more than 11 p, or 11 (p + 1), Service changes in a minute, p being the highest rate in force at any pass |
| `PlatformRun.EscapeRun` | packages/kn-next-operator/internal/controller/nextapp_controller.go:574-590 | a run from the start, with one status write lost, whose next pass changes the Service of an app whose spec has not moved and asks for no slot |
| `PlatformRun.LostStatusEscapes` | packages/kn-next-operator/internal/controller/nextapp_controller.go:574-590 | in general: after a status write lost behind the Service write, a platform put back re-renders without a slot |
| `PlatformRun.EscapesExactly` | packages/kn-next-operator/internal/controller/platform_state.go:273-300 | a pass changes an untriggered app's Service without a slot if and only if it may write, the live values differ, and the stamp says there is nothing to pace |
| `PlatformRun.NoPlatformNoLimiter` | packages/kn-next-operator/internal/controller/platform_state.go:256-259 | as long as no accepted platform ever exists the limiter is never consulted and stays as created |
| `PlatformRun.PassIdempotent` | packages/kn-next-operator/internal/controller/nextapp_controller.go:866-879 | unless a pass left the app queued, any later pass on unchanged inputs and stall diagnoses, whatever other apps did to the limiter since, leaves status and Service as they are, so the status is not written, and emits no verdict event |
| `PlatformRun.QueuedIdle` | packages/kn-next-operator/internal/controller/nextapp_controller.go:850-879 | a queued app seen again before its slot, whatever the other apps did, keeps its status, Service and slot, and nothing is emitted |
| `PlatformRun.QueuedThenWritten` | packages/kn-next-operator/internal/controller/platform_state.go:294-298 | a queued app is rendered by the first pass between its slot and the stale bound, whatever the other apps did in between |
| `PlatformRun.PlatformNeverRejects` | packages/kn-next-operator/internal/controller/platform_state.go:177-211 | an app valid under the built-in budget is held at most, never rejected, under any platform |
| `PlatformLaws.RejectedExactly` | packages/kn-next-operator/internal/controller/nextapp_controller.go:439-443 | an app is rejected exactly for a fault that reads no budget, or when it breaks the wall under the budget in force and under 80 |
| `PlatformLaws.GateLaw` | packages/kn-next-operator/internal/controller/platform_state.go:177-211 | an app that is not rejected is held exactly for the wall, then cpu, then memory, when a platform value is at fault, with the field and numbers of the fault |
| `PlatformLaws.WallRespected` | packages/kn-next-operator/internal/controller/platform_state.go:182-211 | a pass that writes the Service, or changes it, found maxScale bounded and maxScale * poolMax within the accepted platform's budget, or 80 |
| `PlatformLaws.WallOverRuns` | packages/kn-next-operator/internal/controller/platform_state.go:182-211 | over whole runs, failed passes included, no Service is rendered from a spec that may open more connections than the largest budget there has been in force |
| `PlatformLaws.AskedExactly` | packages/kn-next-operator/internal/controller/platform_state.go:260-300 | when the limiter is asked, at what rate, what the gate makes of its answer, and what becomes of the reservation |
| `PlatformLaws.RejectedLaw` | packages/kn-next-operator/internal/controller/nextapp_controller.go:443-468 | a rejected app keeps its Service, stamp and slot and is told why, with the numbers of the wall |
| `PlatformLaws.StampLaw` | packages/kn-next-operator/internal/controller/platform_state.go:337-349 | the stamp of a render: the accepted platform's generation, profile, spec, merged values and inherited paths, or none |
| `PlatformLaws.PlatformReported` | packages/kn-next-operator/internal/controller/platform_state.go:302-335 | what the status says of the platform after a pass, from the objects in the cluster |
| `PlatformLaws.InputsLaw` | packages/kn-next-operator/internal/controller/nextapp_controller.go:707-790 | what the verdict is told of the app itself: its own name, namespace and generation, and no Service conditions when there is no Service |
| `PlatformLaws.MirrorLaw` | packages/kn-next-operator/internal/controller/nextapp_controller.go:478-702 | the address once known stays; traffic, revision, active state and database Secret are those read in the pass, and the deploy time moves for a new revision that serves |
| `PlatformRun.PassHonest` | packages/kn-next-operator/internal/controller/nextapp_controller.go:367-807 | one pass keeps every part of the invariant behind Honest Ready |
| `PlatformRun.PassAccounted` | packages/kn-next-operator/internal/controller/platform_state.go:337-349 | one completed pass keeps the stamp in agreement with the live Service |
| `PlatformRun.GateFacts` | packages/kn-next-operator/internal/controller/platform_state.go:260-300 | a pass is queued only for an untriggered app with a Service, and reserves only when the stamp and the merged values both moved |
| `PlatformReconciler.CheckResources` | packages/kn-next-operator/internal/validation/platform.go:128-147 | the first request above its limit, only when the platform supplied one of the four values |
| `PlatformReconciler.PlatformEffectiveGate` | packages/kn-next-operator/internal/controller/platform_state.go:182-211 | the gate that holds an app made invalid by a platform value |
| `PlatformReconciler.Reconciler.Decide` | packages/kn-next-operator/internal/controller/platform_state.go:273-300 | the five early exits and the reservation, driving the limiter in place |
| `PlatformReconciler.Reconciler.GateRollout` | packages/kn-next-operator/internal/controller/platform_state.go:260-269 | hands a reservation back whenever the app is not queued any more |
| `PlatformReconciler.Reconciler.Reconcile` | packages/kn-next-operator/internal/controller/nextapp_controller.go:367-807 | the pass in place: merge, gate, render or hold, stamp, mirrored status, verdict and guarded write, equal to the specified pass; the status is written exactly when the pass changed it |
| `DeployState.DeriveDeployState` | packages/kn-next-operator/internal/controller/deploy_state.go:58-86 | the deploy state built field by field is the specified one |
| `DeployState.DerivedFixpoint` | packages/kn-next-operator/internal/controller/deploy_state.go:79-82 | deriving again from the same report at a later time changes nothing |
| `DeployState.ScaledMeans` | packages/kn-next-operator/internal/controller/deploy_state.go:64-83 | scaled to zero is the opposite of active and unknown when that is; the time moves only on a Ready pass, to its time |
| `DeployState.FirstReady` | packages/kn-next-operator/internal/controller/deploy_state.go:37-40 | over every history of passes, the recorded time is the first Ready pass of the current revision if and only if the revision arrived with that pass or no deploy was on record before it, and no revision has arrived Ready since, a returning one included |
| `EnvAssembly.ReservedParity` | packages/kn-next-operator/internal/validation/validate.go:635-707 | admission's hand-kept list of reserved names is, for every spec, exactly the set of names the operator injects, and none is injected twice |
| `EnvAssembly.LayeredLookup` | packages/kn-next-operator/internal/controller/nextapp_controller.go:1439-1688 | names are unique and each is looked up as the layered answer: HOSTNAME, the bound database, the user's map, the operator's table, the user's plain entries, the origins |
| `EnvAssembly.OperatorLookup` | packages/kn-next-operator/internal/controller/nextapp_controller.go:1439-1535 | each of the operator's eighteen names has the value a table of the spec gives it |
| `EnvAssembly.OriginsReadBack` | packages/kn-next-operator/internal/controller/public_hosts.go:52-56 | the public hosts are read back from the joined text, in order, each as an https origin |
| `EnvAssembly.OverriddenExactly` | packages/kn-next-operator/internal/controller/database_binding.go:64-110 | a user's entry is reported overridden exactly when the bound database writes over it |
| `EnvAssembly.IgnoredExactly` | packages/kn-next-operator/internal/controller/nextapp_controller.go:1640-1680 | a plain entry is reported ignored, and by whom, exactly when the map, the binding or the operator has its name |
| `EnvAssembly.ReportPartitions` | packages/kn-next-operator/internal/controller/nextapp_controller.go:1394-1425 | the three report lists are sorted and hold each colliding name in exactly the list its kind says |
| `EnvAssembly.MappedLookup` | packages/kn-next-operator/internal/controller/nextapp_controller.go:1566-1630 | resolving the envMap in place and by appending keeps names unique and gives each mapped name its Secret, HOSTNAME excepted |
| `EnvAssembly.MappedSlots` | packages/kn-next-operator/internal/controller/nextapp_controller.go:1577-1582 | saved positions stay valid through in-place replacement and appends |
| `EnvAssembly.App.InjectBoundDatabaseEnv` | packages/kn-next-operator/internal/controller/database_binding.go:64-108 | the bound entries replace the user's in place, and exactly the overridden ones are warned about |
| `EnvAssembly.App.SystemEnv` | packages/kn-next-operator/internal/controller/nextapp_controller.go:1463-1544 | the operator's own variables, conditional by conditional |
| `EnvAssembly.App.MapSecrets` | packages/kn-next-operator/internal/controller/nextapp_controller.go:1556-1630 | the envMap loop with its saved indices computes the mapped list and the three reports |
| `EnvAssembly.App.AppendUserEnv` | packages/kn-next-operator/internal/controller/nextapp_controller.go:1639-1688 | user env is appended only for free names, ignored ones are warned about with their owner, public origins come last |
| `EnvAssembly.App.BuildKsvcEnv` | packages/kn-next-operator/internal/controller/nextapp_controller.go:1439-1635 | the whole assembly, deterministic in the spec |
| `EnvAssembly.JoinOrigins` | packages/kn-next-operator/internal/controller/public_hosts.go:52-56 | every public host as an https origin, comma-joined in list order |
| `Dictionary.OneListing` | packages/kn-next-operator/internal/controller/nextapp_controller.go:1560-1564 | sorted key order leaves no freedom: two listings of the same names are the same list |
| `Dictionary.SortNames` | packages/kn-next-operator/internal/controller/nextapp_controller.go:1560-1564 | sorts the keys of a map into that one listing |
| `WarmWindows.WarmScheduleFloor` | packages/kn-next-operator/internal/controller/nextapp_controller.go:2055-2093 | the loop computes the floor in force and the soonest boundary |
| `WarmWindows.FloorIsLargest` | packages/kn-next-operator/internal/controller/nextapp_controller.go:2083-2085 | the floor is the largest replicas of the active windows, or 0 |
| `WarmWindows.ConstantUntilBoundary` | packages/kn-next-operator/internal/controller/nextapp_controller.go:2034-2041 | floor and boundary are constant from now until the next boundary |
| `WarmWindows.WarmScheduleRequeue` | packages/kn-next-operator/internal/controller/nextapp_controller.go:2099-2112 | the distance to the boundary clamped to ten seconds and one hour |
| `WarmWindows.RequeueMissesNothing` | packages/kn-next-operator/internal/controller/nextapp_controller.go:2095-2123 | the requeue looks again at the boundary itself when within the clamps, never more than ten seconds late, and nothing flips in between |
| `WarmWindows.ActiveExactlyInside` | packages/kn-next-operator/internal/controller/nextapp_controller.go:2043-2048 | for windows whose starts and ends alternate, from the first of them on, the active test holds exactly inside [start, end) |
| `WarmWindows.ActiveMeans` | packages/kn-next-operator/internal/controller/nextapp_controller.go:2043-2048 | whatever the two schedules, active means that the window ends before it starts again, and not at the same instant |
| `WakeGate.SingleFlight` | packages/lib/src/clients.ts:382-427 | over every interleaving at most one wake is unhandled and it is the published one; until the first failed wake only the leader's operation has been started; nothing is started twice |
| `WakeGate.StepKeeps` | packages/lib/src/clients.ts:403-419 | only a leader's own handler withdraws its published wake; woken is set by a success only and never unset |
| `WakeGate.OwnResult` | packages/lib/src/clients.ts:383-427 | every caller is answered by its own operation's one completion |
| `WakeGate.Progress` | packages/lib/src/clients.ts:388-395 | in every reachable state each event but an arrival leaves less work, and one is possible exactly while some call is unanswered |
| `WakeGate.Drains` | packages/lib/src/clients.ts:388-427 | once callers stop arriving, every schedule has at most as many events as there was work, and one that cannot go on has answered everybody |
| `WakeGate.Drained` | packages/lib/src/clients.ts:388-427 | from every reachable state a schedule without arrivals answers everybody |
| `WakeGate.Singleflight.Enter` | packages/lib/src/clients.ts:384-427 | the gate's branches on the shared cell: pass through, park, or lead, as the next event of the cell's history |
| `WakeGate.Singleflight.RunHandler` | packages/lib/src/clients.ts:405-415 | the leader's success and failure handlers |
| `WakeGate.Singleflight.Continue` | packages/lib/src/clients.ts:391-394 | a follower runs its own operation after the shared wake, whatever its outcome |
| `WakeGate.Singleflight.CellSound` | packages/lib/src/clients.ts:383-427 | of the cell itself, at any moment: its published wake is the one wake not handled yet, woken means some wake has succeeded, nothing was started twice, and every answer is its caller's own operation's completion |
| `WakeRetry.RetryBound` | packages/lib/src/clients.ts:566-590 | with a clock that does not run backwards, k sleeps mean the first k - 1 full backoffs sum to less than the budget, all sleeps requested sum to no more than it, and the outcome is that of the last try |
| `WakeRetry.AcquireLaw` | packages/lib/src/clients.ts:551-590 | after which failures another try is made, how long each sleep is, and what ends an acquisition: a success, a permanent failure at once, or the deadline with one final try |
| `WakeRetry.RetryEnds` | packages/lib/src/clients.ts:487-491 | every acquisition ends, within twelve tries under the default knobs |
| `WakeRetry.TwelveTries` | packages/lib/src/clients.ts:487-491 | twelve is reached |
| `SqlQuoting.LiteralReadBack` | packages/db/src/sql.ts:79-90 | lexing a quoted literal followed by any text gives exactly the value and that text, under either standard_conforming_strings setting, if and only if the text neither starts with a quote nor continues the constant (PostgreSQL manual, section 4.1.2.1) |
| `SqlQuoting.IdentReadBack` | packages/db/src/sql.ts:55-63 | the same for identifiers, up to a following double quote (section 4.1.1) |
| `SqlQuoting.RefusedExactly` | packages/db/src/sql.ts:56-61 | a NUL is refused in both, an empty name in identifiers, and nothing else |
| `SqlQuoting.TwiceEscaped` | packages/db/src/sql.ts:83-87 | doubling quotes first and backslashes second escapes each character once |
| `SqlStatements.RenderLexes` | packages/db/src/sql.ts:1-38 | any text built of words, numbers, symbols, quoted literals and quoted identifiers lexes to the tokens of its pieces |
| `SqlEmitters.DropChunksShape` | packages/db/src/extensions/timescaledb.ts:138-143 | one token shape for every table and interval, refused only for a NUL |
| `SqlEmitters.Hypertable` | packages/db/src/extensions/timescaledb.ts:99-115 | one token shape for every table, column and interval, with the two flags in their order |
| `SqlEmitters.CreateIndexPrefix` | packages/db/src/extensions/pgvector.ts:63-75 | CREATE INDEX with its optional words and the index name as one identifier token |
| `SqlEmitters.MagnitudeIsNumber` | packages/db/src/extensions/pgvector.ts:77-80 | every form a number is printed in, with a fraction or a power of ten, is one numeric token (PostgreSQL manual, section 4.1.2.6) |
| `SqlEmitters.WithClause` | packages/db/src/extensions/pgvector.ts:77-80 | the parameters that are set with whatever numbers they have, negative, fractional, NaN and infinite ones included, or no WITH at all |
| `SqlEmitters.Hnsw` | packages/db/src/extensions/pgvector.ts:107-123 | one token shape for every index, table and column name and every number, if and only if the operator class is a plain word |
| `SqlEmitters.Ivfflat` | packages/db/src/extensions/pgvector.ts:148-155 | the same for ivfflat |
| `QuantityBounds.ExponentDigits` | packages/kn-next-operator/internal/validation/quantity.go:114-137 | the scanner counts the significant digits of the first exponent's leading digit run |
| `QuantityBounds.CountIsValue` | packages/kn-next-operator/internal/validation/quantity.go:49-56 | at most four significant digits is the same as a value of at most 9999, for any leading zeros or tail |
| `QuantityBounds.CheckQuantityBounds` | packages/kn-next-operator/internal/validation/quantity.go:83-102 | accepted exactly when the text is at most 64 long and that value at most 9999 |
| `QuantityBounds.ExponentRead` | packages/kn-next-operator/internal/validation/quantity.go:114-137 | the exponent of a text is the number after its first e or E, past one sign, up to the first character that is no digit |
| `QuantityBounds.NoExponent` | packages/kn-next-operator/internal/validation/quantity.go:114-137 | a text without e or E has exponent 0 |

## Left out

- Kubernetes client calls, watches, finalizers, events as objects, metrics and mutexes: inputs of a step, or not modelled. Each pass reads one snapshot and passes of one operator do not overlap.
- Whether Knative has rolled out what was rendered: the Service's Ready condition is an input; Honest Ready speaks of the rendered spec, not of running pods.
- Message wording: kept as the facts it is made of. The test for the prefix `revision X ` is modelled as equality of the recorded revision. Elapsed times in event texts are dropped.
- Which of several validation errors is reported first: an app with a budget-independent error and a broken connection wall reports the former here. The remaining rules of spec validation are one field of the app spec.
- Quantity parsing: a resource text carries the amount it parses to, or none. Time zones and cron parsing: a window carries its fire times, is usable or not, and is assumed to fire again; an unusable one is skipped.
- SHA-256, JSON encoding and hash truncation: hashes are injective.
- The overflow of 64-bit durations and timestamps in the limiter, and callers whose clock is before the zero time.
- The parts of the status that mirror what was read (URL, current traffic, database secret name) are uninterpreted texts. The warm floor inside the rendered Service, traffic targets, NetworkPolicy rendering and CNI classification: easy members.
- The normal approximation with ties, `erfc` and the bootstrap interval: floating point without an exact specification. Samples are reals without NaN.
- `lsn2int`, argument parsing, and a segment size of zero or above 4 GiB, for which the tool divides by zero.
- Python strings are UTF-8 byte sequences with a validity predicate, so text with lone surrogates, which cannot be encoded, has no model; the same goes for unpaired surrogates in SQL texts.
- The CRC trailer is compared as a 32-bit word and the other fields as numbers; `struct.error` and the format's own exceptions are one error result each by cause.
- An operation that comes back through the wake gate itself, as a pool whose query calls its own patched connect would: it would find no published wake. Operations here are opaque and do not re-enter.
- `toFinitePositiveInt` and `isPermanentAcquireError`: the retry knobs are positive integers and each failure says whether it is permanent. Backoff is exact integer arithmetic.
- PostgreSQL's truncation of identifiers to 63 bytes, keyword folding, numeric and Unicode escapes, dollar quoting, the B, X, N and U& prefixes, and numbers with a radix prefix or underscores: never emitted. Which decimal digits a double prints as is an input; the forms they are printed in are modelled.
- `getTableName`, the extension statements and the drizzle operators: fixed texts.
- The length of a quantity text is counted in its characters, which stand for its bytes.
- secrets.envFrom: the keys of the referenced Secrets are invisible to the operator.
