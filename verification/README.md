# Verified model of the ai.local gateway's accounting

This project models how the ai.local gateway authorises requests, admits them against token
quotas, extracts token counts from responses and books them, and proves what that machinery
guarantees over every run.

- `Wrappers.dfy`: optional values and results.
- `Calendar.dfy`: day and month labels; string order and prefixes against calendar order.
- `Tables.dfy`: cache tables with upserts, WHERE clauses and sums; a grouped table answers every filter as a scan would.
- `Ledger.dfy`: the three usage tables, the statements of the triple write, agreement of the caches with the audit log.
- `Pipeline.dfy`: the bounded queue, the worker, its transaction, shutdown and crashes as a step machine; conservation, atomicity, order and drain over every interleaving.
- `Backend.dfy`: `UsageBackend` as a class whose methods are proved to be runs of that machine.
- `Quota.dfy`: `QuotaCheck` with int64 arithmetic over two separately read totals; refinement by the audit log, isolation, mode comparison.
- `Gateway.dfy`: keys, requests, clock and pipeline in one machine; provenance of every audit row.
- `Isolation.dfy`: two runs that booked the same records of a quota scope decide alike in it.
- `Overshoot.dfy`: bounds on how far a quota can be exceeded, and denials that last.
- `Runs.dfy`: runs built request by request, and which steps keep the sizes a bound assumes.
- `Ceiling.dfy`: exactly when the limits themselves are bounds, and that the bound on the overshoot is attained.
- `Keystore.dfy`: the two-index key store as a class, against its history of additions and deletions.
- `Streams.dfy`: the SSE token extractors against last-reading specifications.
- `Apml.dfy`: configuration validation against one declarative predicate, for every map order.
- `OptionMerge.dfy`: the request-option merge, for every map order.
- `Stats.dfy`: the statistics queries.

`dafny verify dfyconfig.toml` checks the whole project.

## Main results

- **Overshoot.** If at most `k` requests of a quota scope are outstanding between the clock reading of their check and
  their final disposition, and in the scope totals lie in `[0, m]` and estimates in `[0, e]`, committed usage of any day
  or month with a positive limit never exceeds `limit + k * m` (`BoundedOvershoot`). Commits may fall between the two
  reads of a check and the clock may roll over between check and record. The side condition
  `limit + k * m + e <= 2^63 - 1` is what keeps the check's int64 addition from wrapping. The bound is attained for every
  `k` and `m` from 1 on (`BoundAttained`, at the smallest positive limit of the route). With one request at a time and no
  rollover the excess is at most the excess of an actual total over its estimate (`SerialOvershoot`).
- **When the limits are bounds.** The APML documentation, under "Execution Modes" and "Budget Windows", calls the limits
  a maximum and a hard ceiling. The code checks an estimate and books the actual total: a run with a single request can
  leave any usage on the books (`CeilingNotHard`). Consider the runs with one request of the scope at a time, no
  rollover, no overflow in the check and totals of at most estimate + `x`. All limits of the route hold in every such
  run if and only if `x` is 0, whatever the limits are (`CeilingIff`). A daily limit on its own holds if and only if
  `x = 0` or a positive monthly limit has `monthly + x <= daily` (`DailyCeilingIff`); a monthly limit on its own if and
  only if `x = 0` or a positive daily limit has `31 * (daily + x) <= monthly` (`MonthlyCeilingIff`).
- **Denials last.** Once a limit has denied a request of a scope, every later check of the scope in that day or month is
  denied for the same or a larger estimate, on any date of it and, under `shared`, for any key, short of overflow
  (`DenialLasts`).
- **Overflow.** The check's test agrees with the mathematical one exactly when the sum fits in int64 (`ExceedsExact`).
  A run with a single request reaches a state in which both counters are full, and there the check allows every
  request of the scope with an estimate above 0 (`OverflowReachable`).
- **Isolation.** Two runs, even of differently configured gateways, that have booked the same records of a scope give the
  same result for every check in it, whatever else they have emitted, dropped, failed, lost or booked (`RunsIsolated`).
- **Accounting.** In every reachable committed state, after any failure or crash at any statement, both caches equal the
  audit log grouped by key, route and period. Every emitted record is dropped, queued, held, committed, failed or lost in
  a crash, and in exactly one of these; none is committed twice.
- **Shutdown.** When the worker has exited, everything the process accepted before `done` was closed has been committed
  or recorded as failed (`StopDrains`). The goroutine's nested loops reach that exit beside any finite list of emits and
  calls of `Stop` (`RunWorker`). Without a started worker `Stop` returns at once, and no later emit or close settles
  anything (`StopWithoutWorker`).

## Choices

- The process-local zone is used on both sides of the quota, as in the code; the APML documentation says UTC under "Budget Windows". The
  clock is abstract; its calendar date never goes back.
- `plan_version` may start with a digit, as in the code; the APML documentation asks for a letter under "AI PLAN Description".
- `[DONE]` is skipped, not a terminator, and only a literal `data: ` prefix with one line per event is accepted, a
  narrower form than section 9.2.6 of the WHATWG HTML Standard.
- SQLite is a set of keyed tables whose transactions commit atomically; a statement that reports an error has no effect
  on the committed tables, and a crash loses the open transaction only. A failed commit is taken not to have happened.
- Each record handed to `EmitNonBlocking` is a new one; its tag stands for the identity of its pointer. The gateway
  machine is proved to respect this (`EmitIsFresh`).
- SHA-256 does not collide on the keys in play, and generated UUIDs and tokens are fresh; both are stated as
  preconditions or guards. The key store is in memory, so a crash empties it.
- JSON is opaque to the stream parsers: a lookup function from payload and path to an optional value. For the option
  merge a body is a tree of objects, and a set on a dot path of plain field names whose parents are absent or objects
  writes that path.
- Calendar years of records are 0 to 9999, where Go prints exactly four digits; the year asked of the monthly report is
  any integer.
- Query errors are in `QuotaCheck` (they allow); the gateway machine has none, since its bounds do not hold with them.

## Model

| member | source | states |
|---|---|---|
| Calendar.LabelOrder | internal/usage/worker.go:164-165 | day and month labels compare as strings exactly as their periods do in time, and are equal only for the same period |
| Calendar.LabelPrefixes | internal/usage/worker.go:164-165 | the month label is the first seven characters of the day label, and the year its first four |
| Calendar.LabelReads | internal/usage/worker.go:164-165 | a day label reads as its date: four year digits, a dash, two month digits, a dash, two day digits |
| Calendar.YearRange | internal/usage/store.go:222-223 | the BETWEEN range from January 1 to December 31 selects exactly the dates whose month label starts with that year |
| Tables.UpsertLookup | internal/usage/worker.go:184-190 | an upsert adds to its own key's row or creates it, and leaves every other key's row as it was |
| Tables.UpsertGroups | internal/usage/worker.go:180-213 | upserting an entry keeps a table the exact grouping of its entries: one row per key with that key's totals, no others |
| Tables.MissedEntry | internal/usage/worker.go:151-152 | a table that missed an entry is not the grouping of the longer list |
| Tables.GroupedQuery | internal/usage/store.go:155-176 | every filter summed over a grouped table equals the same filter summed over the ungrouped entries, per column |
| Tables.SharedIsSumOfKeys | internal/usage/store.go:156-164 | a route's sum for a period is the sum of its keys' sums, for any list naming each key once |
| Tables.KeyWithinRoute | internal/usage/store.go:156-164 | with non-negative tokens on the route in the period, one key's sum never exceeds the route's sum |
| Ledger.TripleWriteAgrees | internal/usage/worker.go:144-222 | the three statements together keep both caches equal to the grouped audit log |
| Ledger.CachedRowIsSums | internal/usage/worker.go:180-213 | with agreeing caches the row of any key, route and period shows the number of its audit rows and the sums of their prompt, completion and total tokens, and is absent exactly if there is no such audit row |
| Ledger.TripleWriteRows | internal/usage/worker.go:180-213 | one write adds one request and the record's prompt, completion and total tokens to its own daily and monthly row and changes no other cached row |
| Ledger.BookedTime | internal/usage/worker.go:160-178 | a write appends one audit row, dated with the record's own time or, if that is zero, with the clock of the write |
| Ledger.PartialWriteDisagrees | internal/usage/worker.go:151-152 | stopping after the first or second statement leaves cache and log in disagreement |
| Ledger.UsedMonotone | internal/usage/store.go:148-185 | a log that only grew, with non-negative totals in the rows a filter selects, answers it with at least as many tokens |
| Ledger.MonthIsSumOfDays | internal/usage/worker.go:180-213 | every column of a monthly row is the sum of that column over the key's daily rows in that month |
| Ledger.YearTotalsAgree | internal/usage/store.go:222-223 | yearly sums of the monthly cache equal range sums of the daily cache, per column |
| Ledger.CacheRowsBalanced | internal/usage/worker.go:187-190 | if audit rows satisfy total = prompt + completion, so does every cache row |
| Pipeline.StepInv | internal/usage/worker.go:71-222 | every step keeps the queue bound, the order and place of records, the working copy of the transaction, cache agreement, shutdown bookkeeping, and that the living process has lost no record |
| Pipeline.DroppedCountsFullEmits | internal/usage/worker.go:71-85 | within one process lifetime the drop counter is the number of emits that found 1024 records queued |
| Pipeline.EmitAtCapacity | internal/usage/worker.go:71-85 | an emit enters at the end of the queue below 1024 queued records and is counted as dropped otherwise |
| Pipeline.StartAnytime | internal/usage/worker.go:97-104 | a backend without a worker can be given one at any time, waiting in the outer select |
| Pipeline.Conservation | internal/usage/worker.go:71-142 | over every interleaving, emitted = dropped + queued + held + committed + failed + lost to a crash, as multisets |
| Pipeline.RowIsEmitted | internal/usage/worker.go:160-178 | every audit row carries the fields of an emitted record, its position as id, and the record's own time when it has one |
| Pipeline.LogIsCommittedOnce | internal/usage/worker.go:101-115 | the audit log is the accepted records in enqueue order with failed and lost ones removed, none of them twice |
| Pipeline.CachesAlwaysAgree | internal/usage/worker.go:151-222 | in every reachable committed state, after any fault or crash, both caches agree with the audit log |
| Pipeline.WaitingStep | internal/usage/worker.go:97-119 | no step but an emit makes a record wait, and a settled record waits no longer |
| Pipeline.TablesStep | internal/usage/worker.go:151-222 | the committed tables change in a commit only, by the whole triple write of the held record |
| Pipeline.LifetimeRun | internal/usage/worker.go:97-142 | in a run without a crash accepted and settled records only grow, no further record is lost, and done is closed exactly if it was or the run closes it |
| Pipeline.RebootAt | internal/usage/worker.go:59-65 | after a crash the backend is as new on the committed tables, with an empty queue, no drops, done open and no worker, and every record accepted so far is settled |
| Pipeline.StopDrains | internal/usage/worker.go:105-128 | when the worker has exited, every record accepted before done was closed is settled in order, and every one accepted since the last crash (all of them if there was none) was committed or recorded as failed |
| Pipeline.StopWithoutWorker | internal/usage/worker.go:123-128 | from any state without a started worker, no run without a start or a crash settles a record, removes one from the queue or changes the tables |
| Pipeline.DrainTerminates | internal/usage/worker.go:101-117 | with no further emits, each worker step uses up a measure on queue length and phase |
| Pipeline.DrainProgress | internal/usage/worker.go:101-117 | once done is closed, a started worker that has not exited can always step |
| Pipeline.MaximalDrainExits | internal/usage/worker.go:97-128 | whichever ready branch select takes, a worker run that cannot be extended has exited |
| Backend.WriteIsAtomic | internal/usage/worker.go:153-222 | the statement steps of one record amount to all three tables or none, and the record is recorded as committed or failed |
| Backend.UsageBackend.constructor | internal/usage/worker.go:59-65 | a new backend is the machine's initial state |
| Backend.UsageBackend.EmitNonBlocking | internal/usage/worker.go:71-85 | the call is the machine's emit step: enqueue below 1024, else count a drop |
| Backend.UsageBackend.CloseDone | internal/usage/worker.go:123-126 | closing done is one step, and a second call changes nothing |
| Backend.UsageBackend.ExecuteTripleWrite | internal/usage/worker.go:153-222 | with a fault at any statement the tables are unchanged; without one they are the triple write, stamped with the record's time or the clock |
| Backend.UsageBackend.WriteRecord | internal/usage/worker.go:135-142 | the call is the machine's run of the write steps for the held record, failures recorded and not retried |
| Backend.UsageBackend.TakeAndWrite | internal/usage/worker.go:103-111 | receiving and writing one record is a run of worker steps that removes the queue's head and settles it: committed with its stamp, or failed exactly if a statement fails |
| Backend.UsageBackend.Drain | internal/usage/worker.go:105-115 | beside any emits, the inner loop is a run of the machine that ends exited with an empty queue and every accepted record settled in order, the new ones committed or failed |
| Backend.UsageBackend.RunWorker | internal/usage/worker.go:97-119 | beside any finite list of emits and closings, for every choice of branch and fault, the goroutine is a run of the machine that ends exited, or blocked with done open and the list used up; done closed means exited; every accepted record is settled in order, the new ones committed or failed |
| Quota.Wrap64 | internal/usage/store.go:107 | int64 addition: the representative modulo 2^64 in the signed range, so the identity in range and negative just beyond it |
| Quota.EstimateInputTokens | internal/usage/store.go:195-207 | the estimate is six tenths of the raw length, rounded down, and 0 without the field |
| Quota.QueryRefinesLog | internal/usage/store.go:148-185 | both branches of the query read exactly what the audit log holds for the scope and period |
| Quota.ExceedsExact | internal/usage/store.go:107-126 | the int64 limit test is the mathematical one exactly when the sum does not overflow |
| Quota.DecisionRefinesLog | internal/usage/store.go:80-140 | unless an addition the check carries out overflows, it allows exactly when every non-zero limit holds on the audit log, and a denial reports the daily figures whenever the daily test fails |
| Quota.FailOpen | internal/usage/store.go:103-125 | a denial means no query that was reached failed |
| Quota.AllowedResult | internal/usage/store.go:86-140 | an allowed check shows no counter and no limit, and its estimate exactly if it was neither bypassed nor cut short by a failed query |
| Quota.OtherModesPerKey | internal/usage/store.go:154-176 | every mode but shared counts per key |
| Quota.QuotaIsolation | internal/usage/store.go:154-174 | databases whose scope rows (key and route, or route) agree in key, route, period and counts decide alike, whatever row ids they have and whatever else they hold |
| Quota.ForeignCommitAgrees | internal/usage/store.go:154-174 | a commit on another route in between leaves the scope's rows in agreement although every later row id shifts |
| Quota.SharedIsSumOfPerKey | internal/usage/store.go:154-174 | the shared query reads the sum of the per-key queries over the route's keys |
| Quota.SharedAllowsImpliesPerKey | internal/usage/store.go:100-136 | a request allowed under shared is allowed under per_key with the same limits, if the route's totals in the periods of the non-zero limits are non-negative and fit |
| Quota.DenialIsATest | internal/usage/store.go:100-136 | a check denies exactly when the test of one of its limits does |
| Quota.DenialPersists | internal/usage/store.go:100-136 | once the test of a limit has failed it fails, and the check denies, on every date of the same day or month after later commits, for the same or a larger estimate and under shared for any key, if the scope's totals in that period are non-negative and fit |
| Gateway.StepsAreQuotaCheck | internal/usage/store.go:80-140 | the clock step and the two read steps, with anything in between, decide as QuotaCheck does on the totals they read |
| Gateway.QuotaInForce | internal/proxy/proxy.go:159-166 | on a validated plan the quota in force is the one the route names, and there is none without a name |
| Gateway.DoorOpens | internal/proxy/proxy.go:147-156 | a request is let in exactly if the store holds its key for its route |
| Gateway.NothingBlocks | internal/proxy/proxy.go:100-185 | every request can take its next step with any answer, or be given up until it is emitted, and any key can be deleted |
| Gateway.ResponseIsStamped | internal/proxy/proxy.go:316-355 | a response makes one record with the request's key and route, the response's address and token counts, their int64 sum, and the clock of that very step, whenever the check was |
| Gateway.CrashForgets | internal/keystore/store.go:41-46 | after a crash no key is found and no unemitted request goes on, while the committed tables stay |
| Gateway.EmitIsFresh | internal/proxy/proxy.go:316-355 | every stamped request can be emitted, and each emission is a record of its own |
| Gateway.LogsStep | internal/usage/worker.go:167-178 | the committed log changes only in a commit, by one row with the held record and its stamp |
| Gateway.StepInv | internal/proxy/proxy.go:100-185 | every step keeps keys issued for one configured route, upstream keys distinct per route, requests tied to issued keys, records tied to the one response of their request and to the clock at it, and dated between their check and the clock |
| Gateway.Provenance | internal/proxy/proxy.go:147-156 | every audit row was charged by a request of its own, no two rows by the same: it names a configured route and a key issued for exactly that route before the record was emitted, its address and token counts are those of that request's one response, its time is the clock at that response, and its total is their int64 sum |
| Gateway.CachesBalanced | internal/proxy/proxy.go:316-355 | without overflow in a response's sum, every cache row satisfies tokens = prompt + completion |
| Isolation.RowsAreBookings | internal/usage/store.go:154-174 | the scope's rows in the log are, ids aside, the committed records of the scope in commit order |
| Isolation.RunsIsolated | internal/usage/store.go:80-174 | two runs of any two gateways that have booked the same records of a scope give every check in the scope the same result |
| Overshoot.UsageNonNegative | internal/proxy/proxy.go:316-355 | audit rows of a scope are records of requests of the scope, so non-negative totals there suffice |
| Overshoot.ReadLeavesRoom | internal/usage/store.go:100-136 | a read that passes leaves room for the estimate in that period, short of overflow |
| Overshoot.ResponseIsCharged | internal/proxy/proxy.go:316-355 | a commit charges the day and month of the clock at the response; after a rollover the period its check looked at is charged nothing |
| Overshoot.CommitWasCharger | internal/proxy/proxy.go:316-355 | a record committed into a limited period was outstanding and had either passed that period's read or been checked in an earlier one |
| Overshoot.CoveredStep | internal/usage/store.go:93-139 | every step keeps usage plus m per possible charger within limit + k * m, for every period |
| Overshoot.BoundedOvershoot | internal/usage/store.go:93-139 | in every run with at most k outstanding requests of the scope, committed usage of a limited period never exceeds limit + k * m |
| Overshoot.SerialOvershoot | internal/usage/store.go:93-139 | one request of the scope at a time, no rollover and no overflow in the check: usage exceeds the limit by at most the excess of an actual total over its estimate |
| Overshoot.DenialLasts | internal/usage/store.go:93-139 | in every run, after a denial by a limit all later checks of the scope in that day or month are denied for the same or a larger estimate, until the addition would overflow |
| Runs.OrderlyStep | internal/proxy/proxy.go:100-185 | which steps keep at most k requests pending, estimates and totals within their sizes, records stamped on the day of their check, and the check's additions within int64 |
| Runs.AdmitOne | internal/usage/store.go:80-140 | in any orderly run with the scope's key in the store, a request whose estimate fits under every limit passes its whole check |
| Runs.FinishOne | internal/usage/worker.go:97-222 | in any orderly run with an idle worker and an empty queue, an admitted request can be answered with any total and booked as the next audit row |
| Ceiling.CeilingNotHard | internal/usage/store.go:93-139 | whatever the limits and whatever estimate they admit, a run with one request, meeting the hypotheses of both bounds, can leave any usage on the books of that day and month |
| Ceiling.CeilingIff | internal/usage/store.go:93-139 | over serial runs with totals of at most estimate + x, no limit of the route is ever exceeded if and only if x is 0 |
| Ceiling.MonthUsage | internal/usage/store.go:148-185 | a scope's usage of a month is the sum of its usages of the days of that month |
| Ceiling.DailyCeilingIff | internal/usage/store.go:100-118 | over the same runs the daily limit is never exceeded if and only if x is 0 or the monthly limit is positive and monthly + x is at most the daily one |
| Ceiling.MonthlyCeilingIff | internal/usage/store.go:120-136 | over the same runs the monthly limit is never exceeded if and only if x is 0 or the daily limit is positive and 31 * (daily + x) is at most the monthly one |
| Ceiling.BoundAttained | internal/usage/store.go:93-139 | for every k and m from 1 on a run meeting the hypotheses of the bound ends with usage of exactly limit + k * m |
| Ceiling.OverflowReachable | internal/usage/store.go:107-126 | a run with one request fills both counters, and then the check allows exactly the requests with a positive estimate |
| Keystore.InsertRepresents | internal/keystore/store.go:83-94 | adding a fresh record keeps both indexes holding the same records, exactly the live ones |
| Keystore.RemoveRepresents | internal/keystore/store.go:98-110 | removing a UUID removes its record from both indexes and nothing else |
| Keystore.FindIsLive | internal/keystore/store.go:128-140 | a hash lookup finds the one live record with that hash, or there is none |
| Keystore.Collect | internal/keystore/store.go:113-122 | the list loop yields every record once, in some order |
| Keystore.Store.constructor | internal/keystore/store.go:41-46 | a new store is valid and has no history |
| Keystore.Store.FindDuplicate | internal/keystore/store.go:60-66 | the scan finds a record with that route and upstream key exactly if there is one, in any order |
| Keystore.Store.AddKey | internal/keystore/store.go:56-95 | succeeds exactly if no live record has that route and upstream key and generation succeeded; the record enters both indexes; a failure changes nothing |
| Keystore.Store.DeleteKey | internal/keystore/store.go:98-110 | succeeds exactly for a present UUID and removes that record from both indexes |
| Keystore.Store.GetKeyByInternal | internal/keystore/store.go:128-140 | succeeds exactly for a key some AddKey returned and whose UUID has not been deleted since, and returns the one such record |
| Keystore.Store.ListKeys | internal/keystore/store.go:113-122 | lists every live record exactly once |
| Streams.LatestIsLast | internal/usage/parser.go:64-84 | a counter ends as the reading of the last payload that has one, or unchanged if none has |
| Streams.LatestConcat | internal/usage/parser.go:106-126 | reading a concatenation continues from the first part's counter |
| Streams.StreamComposes | internal/usage/parser.go:64-84 | the same for streams cut between any two lines |
| Streams.ParseSplitStream | internal/usage/parser.go:56-91 | each counter is the lookup in the last payload of its chunk type, a missing field counting 0 |
| Streams.ParseLastStream | internal/usage/parser.go:102-133 | each counter is independently the value in the last payload that has its path |
| Streams.ParseStreamReader | internal/usage/parser.go:27-40 | the mode selects the extractor; no streaming block or an unknown mode gives zeros |
| Streams.ValidatedStream | internal/apml/parser.go:154-208 | for a validated configuration the zero fallbacks and empty-path guards are redundant on every stream |
| Streams.AcceptedExactly | internal/usage/parser.go:137-147 | a line gives payload p exactly if it is the literal prefix and then p between white space, with p neither empty nor [DONE]; it is rejected exactly without the prefix or around nothing or [DONE] |
| Streams.AsciiSpace | internal/usage/parser.go:141-142 | among the ASCII characters exactly tab to carriage return and the blank are trimmed |
| Streams.LastLineCounts | internal/usage/parser.go:56-133 | after any stream, one more data line sets each counter to the number at its path, in last mode if there is one and in split mode in payloads of its chunk type with 0 for a missing number, and leaves it otherwise; an empty stream gives zeros |
| Streams.NothingCounted | internal/usage/parser.go:27-59 | without a streaming block, in an unknown mode or without a block of split mode both counters are 0 on every stream |
| Streams.NoiseIrrelevant | internal/usage/parser.go:137-147 | inserting or deleting rejected lines anywhere changes neither counter |
| Streams.NoiseLines | internal/usage/parser.go:137-147 | lines without the literal prefix and the [DONE] line are rejected |
| Streams.DoneDoesNotTerminate | internal/usage/parser.go:137-147 | a [DONE] line in the middle changes nothing |
| Apml.CheckQuota | internal/apml/parser.go:105-129 | the quota checks raise no error exactly for a well-formed quota |
| Apml.CheckProvider | internal/apml/parser.go:132-209 | the provider checks raise no error exactly for a well-formed provider |
| Apml.CheckRoute | internal/apml/parser.go:211-231 | the route checks raise no error exactly when provider and quota exist |
| Apml.NamesGrow | internal/apml/parser.go:12-16 | the name and plan-version patterns, character by character |
| Apml.ValidateQuotas | internal/apml/parser.go:105-129 | no error exactly if every quota is well formed, for any map order |
| Apml.ValidateProviders | internal/apml/parser.go:132-209 | no error exactly if every provider is well formed, for any map order |
| Apml.ValidateRoutes | internal/apml/parser.go:211-231 | no error exactly if every route's references resolve, for any map order |
| Apml.Validate | internal/apml/parser.go:83-234 | validation accepts exactly the configurations that satisfy one declarative predicate |
| Apml.ValidationSuffices | internal/proxy/proxy.go:159-165 | on a validated configuration the provider exists, its blocks are present, the quota lookup gives the named quota or none without a name, and an enforced quota is shared or per_key |
| OptionMerge.DottedComponents | internal/proxy/proxy.go:202-203 | a plain field name is one path component, and two of them joined with a dot address exactly the nested field |
| OptionMerge.SetFlat | internal/proxy/proxy.go:205-208 | the set of a flat option writes one top-level field |
| OptionMerge.SetNested | internal/proxy/proxy.go:200-204 | the set of a nested entry writes one field of a top-level object, which it creates if absent |
| OptionMerge.MergeNested | internal/proxy/proxy.go:200-204 | the inner loop writes all entries of one option into an absent or object field, in any order |
| OptionMerge.ExecuteMergeOptionsInline | internal/proxy/proxy.go:189-213 | for every order of both loops: fields of the client's body that no option writes keep their values, an absent stream becomes true, flat options set their field, nested ones add their entries to theirs, and there are no other fields |
| OptionMerge.MergeIsUnique | internal/proxy/proxy.go:189-213 | these conditions leave one document only |
| OptionMerge.HoldsOptions | internal/proxy/proxy.go:198-209 | the result holds every configured option |
| OptionMerge.PreservesOthers | internal/proxy/proxy.go:198-209 | every untargeted path keeps its value or its absence |
| OptionMerge.MergeIdempotent | internal/proxy/proxy.go:189-213 | merging the result again is possible and changes nothing |
| Stats.FirstExists | internal/usage/store.go:223 | every non-empty selection has a row that ORDER BY may yield first, so an ordered answer always exists |
| Stats.GetDailyStats | internal/usage/store.go:210-255 | returns exactly the rows of the date range, latest first and largest first within a day, ties in any order |
| Stats.GetMonthlyStats | internal/usage/store.go:258-302 | returns exactly the rows of the year, for any integer year, latest first and largest first within a month, ties in any order |
| Stats.ReportSorted | internal/usage/store.go:223 | in both reports an earlier row is of a day or month at least as late, and within the same one it has at least as many tokens |
| Stats.DailyRange | internal/usage/store.go:222 | the daily report between two dates holds exactly the cached rows of the days from one to the other |
| Stats.MonthlyRange | internal/usage/store.go:259-271 | the monthly report of a year holds exactly the cached rows of its months |
| Stats.ReportCounts | internal/usage/store.go:212-220 | every row of a report shows the number of its audit rows and the sums of their token columns |
| Stats.NoReportOutside | internal/usage/store.go:258-275 | a year below 0 or above 9999 gets an empty monthly report |
| Stats.ReportsAgree | internal/usage/store.go:210-302 | any monthly and any daily report of a year add up to the same totals in every column, those of its audit rows |
| Stats.GetVerboseLogs | internal/usage/store.go:305-348 | returns the last min(n, size) audit rows, newest first |
| Stats.IdsArePositions | internal/usage/worker.go:167-178 | in every reachable log a row's id is its position, so order by id is commit order |

## Left out

- TLS, gRPC, the command line, logging and file backup: plumbing around the modelled core.
- Header rewriting, URL building and the pipe and tee of streamed bodies: only "a 200 response leads to one stamped and then emitted record" is kept, assuming the body is read.
- `ParseStandardJSON`: two lookups by path; adds nothing to the stream parsers.
- `UnmarshalYAML` and the two regular-expression engines: the configuration starts as decoded maps; the two name patterns are written out as predicates.
- `updated_at` and its report column, and the text of denial and validation messages.
- Byte-level line splitting: streams start as the lines the scanner delivered before any error.
- SQLite's conversion of an overflowing integer sum to a floating-point number: table totals are unbounded integers.
- Quota.DecisionRefinesLog: assumes that no addition the check carries out overflows int64; `ExceedsExact` gives the exact condition and `OverflowReachable` a run that violates it.
- Overshoot.BoundedOvershoot: assumes no query errors, because the fail-open branches admit without looking.
- OptionMerge.ExecuteMergeOptionsInline: covers plain field names and bodies whose targeted fields are absent or objects; what a set does with array indices, escapes and wildcards, or inside a scalar or an array, belongs to a library that is not part of this model.
- Backend.UsageBackend.RunWorker: other goroutines act between any two records; their acts inside a record's transaction are the step machine's.
- Gateway.Provenance: assumes that no presented key collides with an issued one under the hash.
