# Verification of the corpus engines

A Dafny model of four pieces of logic this repository carries, with proofs that hold for every input, every run and
every reachable state. `dafny verify dfyconfig.toml` checks the whole project.

**Aho-Corasick decision core** (`Words`, `Patterns`, `Trie`, `FailLinks`, `Automaton`, `ScanSpec`, `Scan`,
`TargetScan`). The build fills the goto table, the fail links and the output masks in place, breadth first. It is proved
that the finished automaton, after any text, stands on the longest suffix that is a prefix of some pattern, and that one
pass over any buffer answers exactly what plain substring search answers. `ScanSpec` states that answer without an
automaton. The two-pass scan of a request target is built on it.

**Ban engine** (`BanModel`, `BanTree`, `BanZone`, `BanCounting`, `BanEviction`, `BanReclaim`). `SharedZone` is the
mutable zone: search tree, queue, cursor and counters. Each of its methods is proved equal to a function of `BanModel`,
and those functions carry the results: what every call keeps, when bounded eviction cannot be noticed, and how fast
stale nodes go.

**CAPE job protocol** (`StoreClock`, `TokenBucket`, `CapeJob`, `CapeStore`, `CapeProtocol`, `CapeSafety`, `CapeSteps`,
`CapeRuns`, `CapeOutcomes`, `CapeHistory`, `CapeQuota`, `CapeSpool`, `CapeSync`, `CapeScheduler`, `CapeDelivery`,
`CapeSlots`, `CapeWitness`, `CapeBuckets`, `CapeCleanup`, `CapeDeadlines`, `CapeEffects`, `CapeProgress`, `CapeCalls`,
`CapeMaintenance`, `CapeService`, `Batches`, `Callback`, `CallbackAccepts`). `CapeJob` holds the row and every update of
it, `CapeStore` one function per transaction. `CapeProtocol` is the transition system: ingress writers, the scheduler
with its requests in the air and its retained packets, cancellation, polling, maintenance, crashes and restarts. A
transaction can commit, roll back, commit while reporting an error, or commit before an error in the work that follows.
The history of all attempts ever made is part of the state, so that the theorems speak about whole runs. `CapeService`
is the mutable store with its loops, proved against the same functions.

**Alias rewriter** (`AliasLines`, `AliasSplit`, `AliasRewriter`, `AliasPosition`, `AliasTwice`). Splitting a rule file
into blocks and replacing its matcher by another rule's, with the round trip, idempotence and the meaning of the result.

## Findings

- Eviction can be noticed. A counting window longer than the ban time lets a lapsed ban be evicted while its window
  still counts; the address then starts a fresh window and can be banned for hits that a table that never evicts counts
  in two. `InvisibleIffSafe` gives the exact condition; no such check is in the source.
- `persistCallback` reads the clock twice, and wall time may step either way in between. If the second reading is at
  most B behind the first and at most G ahead of it, the retention protects against replay exactly while B + G is under
  55 seconds (`ReplaySafeIff`): 55 seconds ahead let a replay through, and so do 30 behind once and 25 ahead later.
- The comment in front of the two-pass scan says that all AND-rules match in the first pass. A rule that reports a
  query-exempt category is masked there like the category itself, so it only counts in the path (`InspectTarget`, at an
  input in `ExemptRuleIsMasked`). The model follows the code.
- `persist` treats a missing row as an error to be retried. A packet whose row was deleted meanwhile stays pending until
  the process restarts, and with it every submission (`LostRowBlocks`, reached in `PacketCanOutliveItsRow`). Exactly the
  packets whose row exists can be delivered (`PersistDelivers`).
- When the commit of `RecordSubmission` reports an error although it happened, and only then, the attempt keeps its
  concurrency slot (`SlotKeptIff`, and over whole runs `SlotsAreHeld`). Once the job is not queued again the slot is
  lost until a restart (`LeakLasts`). As many kept slots as the limit stop all submissions, or all of a tenant, whether
  their jobs are queued again or not (`LostSlotsStop`). Where a tenant may have one submission, which is the default, a
  single such error is enough for that tenant (`OneErrorStopsTenant`).
- `Maintain` promises that removal is synced before the reservation is released, but `removePayload` syncs the directory
  only if it removed something. If the sync fails, the retry finds no payload, syncs nothing and deletes the row; a
  crash can then bring the payload back (`PayloadCanOutliveItsRow`). That is so exactly when no other step synced the
  directory in between (`PayloadReturnsIff`); without a failed sync each file belongs to a row (`FilesHaveRows`).
  Recovery removes such a payload, and there are never too many of them (`RecoveryNeverRefuses`).
- A rewritten alias splits back into its blocks, and is left alone by a second rewrite, if and only if its preamble is
  ended, or it has no block and the target no matcher key. An alias with at least one block always meets this
  (`RewriteSplits`, `RewriteTwice`); one that is only an unended comment does not (`UnendedComment`).
- A completed row always has its dedup barrier, so the 24-hour clause of `reusable` never decides
  (`ReusableIsBlocking`).
- No code path writes `remote_purge_confirmed`; that part of the retention test is never true.
- The cursor text at `ngx_http_shield_ban.h` lines 165 to 169 describes a rotation that the `.c` file no longer does.
  The model follows the `.c` file.

## Model

| member | source | states |
|---|---|---|
| Automaton.Build | ci/corpus/nginx-http-shield-module/src/ngx_http_shield_scan.c:66-116 | Succeeds exactly when there are at most 64 rule terms, one state per pattern byte plus the root is at most 65535, and memory is there; the machine then recognises the table: every transition leads to the longest suffix, and every mask holds exactly what ends there |
| Automaton.BuildTables | ci/corpus/nginx-http-shield-module/src/ngx_http_shield_scan.c:118-291 | The filled arrays recognise the trie of all patterns, never use more states than the bound, and the queue has held every non-root state exactly once |
| Automaton.BuildRows | ci/corpus/nginx-http-shield-module/src/ngx_http_shield_scan.c:144-172 | The reverse index maps the id of every row this automaton can report, through a signature or through a rule, to that row, and no other id to a wrong row |
| Automaton.BuildNeed | ci/corpus/nginx-http-shield-module/src/ngx_http_shield_scan.c:215-228 | Each rule of this flavour waits for exactly the bits of its own terms, numbered across all rules in declaration order whatever their flavour; the others wait for nothing |
| Automaton.CountStates | ci/corpus/nginx-http-shield-module/src/ngx_http_shield_scan.c:75-95 | The counted bound is one more than the total length of all patterns |
| Automaton.CountTerms | ci/corpus/nginx-http-shield-module/src/ngx_http_shield_scan.c:100-103 | All terms of all rules are counted, of both flavours |
| Automaton.AddSignatures | ci/corpus/nginx-http-shield-module/src/ngx_http_shield_scan.c:178-207 | Afterwards the array is the trie of every signature, and a state accepts exactly the categories whose signature it spells |
| Automaton.AddTerms | ci/corpus/nginx-http-shield-module/src/ngx_http_shield_scan.c:215-246 | Afterwards the array is the trie of signatures and terms together, and the term mask of a state holds exactly the terms it spells |
| Automaton.EnqueueRoots | ci/corpus/nginx-http-shield-module/src/ngx_http_shield_scan.c:250-258 | The children of the root are queued once each, and the breadth-first invariant holds from there |
| Automaton.ResolveLinks | ci/corpus/nginx-http-shield-module/src/ngx_http_shield_scan.c:260-291 | The whole breadth-first pass keeps the invariant: fail links are longest proper suffixes, finished rows are flattened to them, and masks of linked states are complete |
| Tries.TrieStates | ci/corpus/nginx-http-shield-module/src/ngx_http_shield_scan.c:174-199 | The states of the trie are exactly the prefixes of the patterns, one state for each, numbered below one plus the total length |
| Tries.AddPattern | ci/corpus/nginx-http-shield-module/src/ngx_http_shield_scan.c:187-205 | Adding one pattern to the array equals inserting its word into the trie and its bit at its last state, without touching another state's mask |
| FailLinks.ShallowIsDone | ci/corpus/nginx-http-shield-module/src/ngx_http_shield_scan.c:260-264 | When a state is dequeued, every shallower state, its fail state included, has been flattened |
| FailLinks.FailOfChild | ci/corpus/nginx-http-shield-module/src/ngx_http_shield_scan.c:265-276 | The longest proper suffix of a child is where the fail state of its parent goes on the same byte |
| FailLinks.LinkStep | ci/corpus/nginx-http-shield-module/src/ngx_http_shield_scan.c:276-289 | Linking and queuing one child keeps the whole invariant, the union of both masks included |
| FailLinks.FlattenStep | ci/corpus/nginx-http-shield-module/src/ngx_http_shield_scan.c:271-274 | Flattening an absent transition keeps the whole invariant |
| FailLinks.DrainedReachesAll | ci/corpus/nginx-http-shield-module/src/ngx_http_shield_scan.c:260-291 | When the queue has run empty every state of the trie has been linked |
| Scan.StateIsLongestSuffix | ci/corpus/nginx-http-shield-module/src/ngx_http_shield_scan.c:384-460 | After any text the state is the node of the longest suffix of that text that is a prefix of some pattern |
| Scan.MasksAreExact | ci/corpus/nginx-http-shield-module/src/ngx_http_shield_scan.c:276-287 | After any text both masks of the state are exactly the categories and the terms that end the text |
| Scan.LowestBit | ci/corpus/nginx-http-shield-module/src/ngx_http_shield_scan.c:35-62 | The least element of a non-empty mask |
| Scan.BestRow | ci/corpus/nginx-http-shield-module/src/ngx_http_shield_scan.c:384-460 | The lowest table row among the live bits, or the number of rows when there is none |
| Scan.ScanSignatures | ci/corpus/nginx-http-shield-module/src/ngx_http_shield_scan.c:384-460 | Reports the lowest unskipped row at the earliest position where an unskipped signature ends, or has seen exactly the terms that occur in the buffer |
| Scan.DecideRules | ci/corpus/nginx-http-shield-module/src/ngx_http_shield_scan.c:384-460 | Reports the row of the first unskipped rule of this flavour all of whose terms occur, or there is none |
| Scan.AcScan | ci/corpus/nginx-http-shield-module/src/ngx_http_shield_scan.c:384-460 | For every buffer and every skip mask the answer is the one of plain substring search; an automaton that was never built answers nothing |
| ScanSpec.AnswerUnique | ci/corpus/nginx-http-shield-module/src/ngx_http_shield_scan.c:384-460 | The substring specification leaves no choice: two answers to the same scan are equal |
| ScanSpec.AnswerIffMatches | ci/corpus/nginx-http-shield-module/src/ngx_http_shield_scan.c:384-460 | There is an answer exactly when some unskipped category or rule matches |
| ScanSpec.SkipMonotone | ci/corpus/nginx-http-shield-module/src/ngx_http_shield_scan.c:384-460 | A larger skip mask never creates a hit |
| TargetScan.ScanInput | ci/corpus/nginx-http-shield-module/src/ngx_http_shield_scan.c:320-375 | The answer is the one plain substring search gives on the lower-cased input, and if nothing matches there the one on the decoded form; it hits exactly when an unskipped category or rule is found in one of them |
| TargetScan.InputAnswerUnique | ci/corpus/nginx-http-shield-module/src/ngx_http_shield_scan.c:320-375 | That specification leaves no choice: two answers to the same input are equal |
| TargetScan.RawFoldsCaseAlone | ci/corpus/nginx-http-shield-module/src/ngx_http_shield_scan.c:320-375 | Two inputs have the same raw form exactly when they differ in the case of ASCII letters alone, and the raw form has no capital letter |
| TargetScan.RawAnswerIgnoresCase | ci/corpus/nginx-http-shield-module/src/ngx_http_shield_scan.c:320-375 | The case of letters does not change the raw answer |
| TargetScan.DecodedFoldsPlusAndCase | ci/corpus/nginx-http-shield-module/src/ngx_http_shield_scan.c:320-375 | The decoded form has a space for each plus sign and small letters for capital ones, and is otherwise what was decoded |
| TargetScan.NoQueryMask | ci/corpus/nginx-http-shield-module/src/ngx_http_shield_patterns.h:1256-1269 | The mask holds exactly the ids of the query-exempt rows |
| TargetScan.FindPath | ci/corpus/nginx-http-shield-module/src/ngx_http_shield_module.c:934-963 | Finds the path part: everything before the first question mark |
| TargetScan.PathEndsAtQuery | ci/corpus/nginx-http-shield-module/src/ngx_http_shield_module.c:934-963 | The path has no question mark, is a prefix of the target, and ends at the first question mark or at the end |
| TargetScan.TwoPasses | ci/corpus/nginx-http-shield-module/src/ngx_http_shield_module.c:934-963 | The two masked passes together find something exactly when an unskipped category or rule is found where it counts: a query-exempt one in the path, any other in the whole target |
| TargetScan.SecondPassOptional | ci/corpus/nginx-http-shield-module/src/ngx_http_shield_module.c:934-963 | The second pass finds nothing when the path is empty or every exempt category is skipped, so leaving it out loses nothing |
| TargetScan.InspectTarget | ci/corpus/nginx-http-shield-module/src/ngx_http_shield_module.c:934-963 | Reports a hit exactly when an unskipped category or rule is found where it counts; the answer is that of the whole target with the exempt categories masked, and only if nothing is found there that of the path with only those |
| TargetScan.ExemptRuleIsMasked | ci/corpus/nginx-http-shield-module/src/ngx_http_shield_module.c:916-963 | For a rule that reports a query-exempt category there is a target with all its terms, on which neither pass reports anything |
| BanModel.AddClamp | ci/corpus/nginx-http-shield-module/src/ngx_http_shield_ban.c:60-70 | Never before the start, never above the largest time, exact unless saturated |
| BanModel.TouchValid | ci/corpus/nginx-http-shield-module/src/ngx_http_shield_ban.c:112-153 | Moving a found node to the head keeps tree and queue over the same nodes, no address twice, and the cursor at the sentinel or a queued node |
| BanCounting.FoundStandsFirst | ci/corpus/nginx-http-shield-module/src/ngx_http_shield_ban.c:112-153 | A found address stands first afterwards, the others keep their order and nothing else changes; an address that is not found changes nothing |
| BanModel.ExpireDropsStale | ci/corpus/nginx-http-shield-module/src/ngx_http_shield_ban.c:195-374 | An eviction call keeps the zone valid, alters no node, frees only stale ones and at most four of them, and never touches the ban count |
| BanModel.FinishValid | ci/corpus/nginx-http-shield-module/src/ngx_http_shield_ban.c:278-374 | The walk ends within its budgets of 32 visits and 4 evictions, after wrapping at most once, in a valid zone |
| BanModel.RecordValid | ci/corpus/nginx-http-shield-module/src/ngx_http_shield_ban.c:388-488 | Recording a hit keeps every zone invariant, with and without memory |
| BanCounting.BanCountedIffBanned | ci/corpus/nginx-http-shield-module/src/ngx_http_shield_ban.c:388-488 | The ban counter grows by one exactly when a hit bans an address that was not banned; a hit dropped for want of memory bans and counts nothing |
| BanCounting.BansAreArmed | ci/corpus/nginx-http-shield-module/src/ngx_http_shield_ban.c:470-486 | Over every run the counter counts exactly the hits that banned someone |
| BanCounting.BannedAtTheThreshold | ci/corpus/nginx-http-shield-module/src/ngx_http_shield_ban.c:388-488 | From the hit that opens a window, fewer hits than the threshold ban nobody, and the hit that reaches it bans the address until exactly the ban time later, whatever other clients do in between |
| BanCounting.LapsedBanRetired | ci/corpus/nginx-http-shield-module/src/ngx_http_shield_ban.c:440-470 | A ban that lapsed within its window is retired by the next hit, which counts in that window |
| BanTree.LessTotal | ci/corpus/nginx-http-shield-module/src/ngx_http_shield_ban.c:73-153 | The order by hash, length and bytes is total, so colliding hashes are still told apart |
| BanTree.LessTransitive | ci/corpus/nginx-http-shield-module/src/ngx_http_shield_ban.c:73-153 | The order is transitive |
| BanTree.AttachSorted | ci/corpus/nginx-http-shield-module/src/ngx_http_shield_ban.c:73-109 | Inserting an absent key keeps search order |
| BanTree.AttachMembers | ci/corpus/nginx-http-shield-module/src/ngx_http_shield_ban.c:73-109 | Inserting adds exactly the new key |
| BanTree.Find | ci/corpus/nginx-http-shield-module/src/ngx_http_shield_ban.c:112-153 | The descent finds a key exactly when the tree holds it |
| BanZone.SharedZone.constructor | ci/corpus/nginx-http-shield-module/src/ngx_http_shield_ban.c:156-172 | A new zone is valid and empty |
| BanZone.SharedZone.Lookup | ci/corpus/nginx-http-shield-module/src/ngx_http_shield_ban.c:112-153 | Finds an address exactly when it is present, and then moves it to the head of the queue |
| BanZone.SharedZone.IsBanned | ci/corpus/nginx-http-shield-module/src/ngx_http_shield_ban.c:377-385 | Answers from the node's ban time, and counts as a lookup |
| BanZone.SharedZone.Expire | ci/corpus/nginx-http-shield-module/src/ngx_http_shield_ban.c:195-374 | The in-place walk computes the specified walk: same nodes freed, same cursor |
| BanZone.SharedZone.Record | ci/corpus/nginx-http-shield-module/src/ngx_http_shield_ban.c:388-488 | The in-place record computes the specified one, eviction pass, dropped hit and armed ban included |
| BanEviction.EvictionIsInvisible | ci/corpus/nginx-http-shield-module/src/ngx_http_shield_ban.c:340-360 | Under a safe policy every admissible run gets the same banned answers and the same ban count as from a table that never evicts |
| BanEviction.UnsafeIsVisible | ci/corpus/nginx-http-shield-module/src/ngx_http_shield_ban.c:340-360 | Every other policy has a run on which they differ, and at each of its hits neither the zone nor the table that never evicts bans the client |
| BanEviction.InvisibleIffSafe | ci/corpus/nginx-http-shield-module/src/ngx_http_shield_ban.c:340-488 | Eviction is invisible on all admissible runs if and only if the count is at most one, the window is at most the ban time, or no time outlasts the window; the same holds for the runs in which the zone, too, admits every hit |
| BanReclaim.TurnPays | ci/corpus/nginx-http-shield-module/src/ngx_http_shield_ban.c:278-374 | Each visit is paid for by progress along the lap or by a freed stale node |
| BanReclaim.ExpirePays | ci/corpus/nginx-http-shield-module/src/ngx_http_shield_ban.c:263-374 | A call leaves no stale node or uses up its whole budget of work |
| BanReclaim.ReclaimCompletes | ci/corpus/nginx-http-shield-module/src/ngx_http_shield_ban.c:263-374 | From any cursor, n calls with 32 n at least twice the nodes plus eight times the stale ones, and in particular twice as many calls as nodes, leave exactly the live nodes, unaltered |
| CapeJob.AppendTasks | ci/corpus/mailstrix/internal/cape/store_state.go:193-208 | Keeps each valid id among the first sixteen tasks exactly once and no other id, and reports a refusal exactly when some task was not kept |
| CapeJob.TaskIdsDistinct | ci/corpus/mailstrix/internal/cape/store_state.go:193-208 | No task id is stored twice |
| CapeJob.RecordedRow | ci/corpus/mailstrix/internal/cape/store_state.go:171-250 | Recording closes the open attempt, never revives a terminal row, and leaves the row owing a remote task exactly when the outcome does not prove that nothing was sent |
| CapeOutcomes.StateOfOutcome | ci/corpus/mailstrix/internal/cape/store_state.go:210-236 | A waiting row fails if and only if several tasks were returned, is remotely pending if and only if the success is clean with one valid task, is queued if and only if a failure proves that nothing was sent, and is uncertain otherwise |
| CapeOutcomes.LiveOutcome | ci/corpus/mailstrix/internal/cape/store_state.go:171-236 | What each of the four stores: the one task id without debt; the next attempt five seconds to five minutes ahead; or unknown debt, with the reason and the terminal time |
| CapeOutcomes.LateOutcome | ci/corpus/mailstrix/internal/cape/store_state.go:238-250 | A late outcome leaves a terminal row's state, reason and time; it owes nothing if nothing was sent, one known task after a success with one, and an unknown one otherwise |
| CapeJob.ReusableIsBlocking | ci/corpus/mailstrix/internal/cape/store_ingress.go:216-227 | On every reachable row, being reusable is the same as being queued or owing an attempt; the clause for recently completed rows never decides |
| CapeJob.TerminatedQuiet | ci/corpus/mailstrix/internal/cape/lifecycle.go:79-92 | Cancelling or expiring a row forgets no attempt, keeps its first terminal time and raises its version |
| CapeOutcomes.EndOutcome | ci/corpus/mailstrix/internal/cape/lifecycle.go:79-92 | A row that is cancelled or expires has that state and reason, its first terminal time and no result; an attempt in flight leaves unknown debt, a known task stays owed |
| CapeJob.ProgressedQuiet | ci/corpus/mailstrix/internal/cape/transitions.go:72-131 | A poll or report changes neither the attempt nor the debt of a row, and stores a result only on completion |
| CapeOutcomes.ProgressOutcome | ci/corpus/mailstrix/internal/cape/transitions.go:72-131 | Which state, reason, result and terminal time each kind of poll and report leads to, and that nothing owed or owned changes |
| CapeJob.DeletedQuiet | ci/corpus/mailstrix/internal/cape/lifecycle.go:192-215 | Recording a remote deletion clears no barrier and forgets no task |
| CapeOutcomes.DeletionOutcome | ci/corpus/mailstrix/internal/cape/lifecycle.go:192-215 | An acknowledged deletion is kept; the row is acknowledged exactly when all of its tasks are and no unknown one is owed |
| CapeJob.MinimizedQuiet | ci/corpus/mailstrix/internal/cape/lifecycle.go:296-316 | A tombstone past retention keeps its barrier and its key |
| CapeOutcomes.RetentionOutcome | ci/corpus/mailstrix/internal/cape/lifecycle.go:294-313 | Retention deletes exactly the rows that ended a day ago and owe nothing, and of the others that ended a day ago keeps the barrier without result and verdict |
| CapeJob.RecoveredQuiet | ci/corpus/mailstrix/internal/cape/store_state.go:321-336 | A submitting row found at start keeps its attempt and becomes uncertain |
| CapeOutcomes.RestartOutcome | ci/corpus/mailstrix/internal/cape/store_state.go:321-336 | A restart makes an interrupted submission uncertain with unknown debt, and changes no other row |
| CapeService.CountIngress | ci/corpus/mailstrix/internal/cape/store_ingress.go:366-423 | The body is accepted exactly when its size is between one and the limit, and refused as too large or as invalid otherwise |
| CapeService.Service.FindReusable | ci/corpus/mailstrix/internal/cape/store_ingress.go:119-141 | Finds a reusable row with the same key exactly when there is one |
| CapeService.Service.Publish | ci/corpus/mailstrix/internal/cape/store_ingress.go:110-158 | The row becomes queued unless a reusable row with the same key exists; then only the clock moves |
| CapeService.Service.CleanupStaging | ci/corpus/mailstrix/internal/cape/store_ingress.go:440-468 | The temporary file goes first, then the blob, then the directory is synced, then the row goes, for every point at which it can stop; a published row is never erased |
| CapeService.Service.CountOwn | ci/corpus/mailstrix/internal/cape/store_state.go:51-57 | The number of live attempts of the tenant |
| CapeService.Service.TakeTokens | ci/corpus/mailstrix/internal/cape/store_state.go:61-68 | One token from each named bucket in turn, or the first refusal |
| CapeService.Service.BeginSubmission | ci/corpus/mailstrix/internal/cape/store_state.go:22-85 | In place: nothing changes on refusal or rollback; the slot is held only when the transaction reported success; sending is permitted only without any error |
| CapeService.Service.RecordSubmission | ci/corpus/mailstrix/internal/cape/store_state.go:140-169 | In place: the committed row, the freed slot and the removed payload, for each point at which an error can be reported, the unlink and its sync included; what the row is follows from the outcome lemmas |
| CapeService.Service.Cancel | ci/corpus/mailstrix/internal/cape/lifecycle.go:99-150 | In place: a row that is not staging becomes cancelled, with the high-water time when the clock ran back, and loses its payload; each point at which an error can be reported is told apart |
| CapeService.Service.RemovePayload | ci/corpus/mailstrix/internal/cape/lifecycle.go:152-158 | In place: the payload goes and the directory is synced only if there was one; a failed unlink, or a failed sync of a payload that was there, is an error |
| CapeCalls.RecordCallIsRun | ci/corpus/mailstrix/internal/cape/store_state.go:140-169 | A record call that persists a packet is a run of one scheduler step and at most one removal, and the packet leaves the queue exactly when the call reports no error |
| CapeCalls.CancelCallIsRun | ci/corpus/mailstrix/internal/cape/lifecycle.go:99-150 | A cancel call is a run of one cancellation and at most one removal |
| CapeService.Service.ExpirePass | ci/corpus/mailstrix/internal/cape/lifecycle.go:236-270 | One batch of the deadline pass in one transaction, at one store time |
| CapeService.Service.RetainPass | ci/corpus/mailstrix/internal/cape/lifecycle.go:271-323 | One batch of the retention pass: payloads go at once, even if the transaction rolls back; rows only with the commit; the pass stops at the first row whose payload cannot be removed and synced, and at no other |
| CapeMaintenance.ExpirePassIsRun | ci/corpus/mailstrix/internal/cape/lifecycle.go:236-270 | A deadline pass over a batch is a run of protocol steps, so that every theorem over runs covers it |
| CapeMaintenance.RetainPassIsRun | ci/corpus/mailstrix/internal/cape/lifecycle.go:271-323 | So is a committed retention pass |
| CapeMaintenance.RolledBackRetainIsRun | ci/corpus/mailstrix/internal/cape/lifecycle.go:271-323 | A rolled back retention pass is a run of payload removals: every row stays, and exactly the payloads of rows past submission are gone |
| CapeMaintenance.StoppedRetainIsRun | ci/corpus/mailstrix/internal/cape/lifecycle.go:271-323 | A retention pass that a failed removal stops leaves every row, and its files are those of a run of removals of which the last one failed |
| CapeService.Service.RecoverRows | ci/corpus/mailstrix/internal/cape/store_state.go:312-344 | The job pass: staging rows go with their files, submitting rows become uncertain, rows past submission lose their payload, and every other file stays |
| CapeService.Service.RecoverSpool | ci/corpus/mailstrix/internal/cape/store_state.go:346-392 | The spool pass leaves exactly the needed payloads, each whole, and no temporary file; it refuses only for a wrong size or more than twenty thousand entries |
| CapeService.Service.Recover | ci/corpus/mailstrix/internal/cape/store_state.go:267-310 | Recovery succeeds exactly when there are at most ten thousand rows, no needed payload is missing or damaged and at most twenty thousand files are left after the job pass, and then reaches the specified store |
| CapeSafety.PublishCore | ci/corpus/mailstrix/internal/cape/store_ingress.go:110-158 | Publishing keeps at most one blocking row per key and every unproved attempt backed by its row |
| CapeSafety.BeginCore | ci/corpus/mailstrix/internal/cape/store_state.go:69-77 | Beginning an attempt makes a new ticket, never one used before, and keeps the same invariants |
| CapeSafety.RecordCore | ci/corpus/mailstrix/internal/cape/store_state.go:171-191 | A record closes an attempt that was open, and keeps the same invariants |
| CapeSafety.RecoverCore | ci/corpus/mailstrix/internal/cape/store_state.go:312-344 | So does reconciling every row at once |
| CapeSteps.PersistFollows | ci/corpus/mailstrix/internal/cape/scheduler.go:366-390 | Persisting a packet either changes nothing or records the current attempt of its row, and no other change |
| CapeSteps.RetainFollows | ci/corpus/mailstrix/internal/cape/lifecycle.go:271-318 | The retention pass changes nothing, minimizes the row, or deletes it, and deletes it only when it is terminal and untouched by any attempt that may have been sent |
| CapeRuns.StepFollows | ci/corpus/mailstrix/internal/cape/store_state.go:22-392 | Every step, whatever the fault, makes one of eight changes to the table, the history and the spool, and only one that fits its kind |
| CapeRuns.StepSound | ci/corpus/mailstrix/internal/cape/store_state.go:22-392 | Every step keeps all protocol invariants |
| CapeHistory.AtMostOneUnproved | ci/corpus/mailstrix/internal/cape/store_ingress.go:110-158 | Over every run, with faults, crashes and restarts, each dedup key has at most one attempt without a recorded proof that nothing was sent |
| CapeHistory.ForgottenOwesNothing | ci/corpus/mailstrix/internal/cape/lifecycle.go:292-316 | Over every run, the attempts of a row that is gone were all proved unsent |
| CapeHistory.ForgetsOnlySettledRows | ci/corpus/mailstrix/internal/cape/lifecycle.go:292-316 | The step that deletes a row finds it staging or terminal, with no task id, no debt, no barrier, and every attempt it made proved unsent |
| CapeHistory.PayloadsArePresent | ci/corpus/mailstrix/internal/cape/store_ingress.go:424-434 | At every point of every run each queued, submitting or uncertain row has its whole payload in the spool |
| CapeSpool.StepKeepsSpool | ci/corpus/mailstrix/internal/cape/lifecycle.go:152-158 | Every step keeps the spool in order: a job has at most one file; while the store is open every payload belongs to a row; payloads without a row and unsynced ones, together with the rows written out, are at most as many as there may be rows |
| CapeSpool.RecoveryNeverRefuses | ci/corpus/mailstrix/internal/cape/store_state.go:267-392 | In every reachable state, whatever was interrupted, recovery does not refuse: there are not too many rows or files, and no needed payload is missing or damaged; afterwards no row is staging or submitting and the spool holds exactly the payloads of queued and uncertain rows |
| CapeSpool.NeverOverfull | ci/corpus/mailstrix/internal/cape/store_state.go:346-363 | After the job pass the spool never holds more files than there may be rows, half of what recovery allows |
| CapeSpool.RestartSucceeds | ci/corpus/mailstrix/internal/cape/store_state.go:267-392 | A restart therefore always opens the store again |
| CapeSpool.Restart | ci/corpus/mailstrix/internal/cape/store_state.go:267-285 | The recovery method itself succeeds from every reachable store and leaves it clean |
| CapeSync.UnsyncedIff | ci/corpus/mailstrix/internal/cape/lifecycle.go:152-158 | While the store is open, a payload's unlink is not synced exactly when some removal unlinked it, could not sync, and no later step of the run synced the directory |
| CapeSync.PayloadReturnsIff | ci/corpus/mailstrix/internal/cape/lifecycle.go:227-300 | The deletion of a row past staging leaves a payload that a crash can bring back if and only if some earlier removal unlinked it without a sync and nothing synced since; otherwise removal was synced before the reservation was released |
| CapeSync.FilesHaveRows | ci/corpus/mailstrix/internal/cape/lifecycle.go:227-300 | In every run in which no payload removal fails to sync, crashes and restarts included, each file of the spool belongs to a row |
| CapeWitness.PayloadCanOutliveItsRow | ci/corpus/mailstrix/internal/cape/lifecycle.go:152-158 | After one failed sync, a run of eight steps ends with a payload and no row |
| CapeHistory.LifeOfARow | ci/corpus/mailstrix/internal/cape/store.go:458-475 | From any reachable state on: every update raises the version, a terminal row stays terminal and only ever becomes cancelled, its first terminal time and its task ids stay, ids are never reused, and an attempt is closed at most once |
| CapeHistory.ResultsAreOwned | ci/corpus/mailstrix/internal/cape/transitions.go:92-184 | A stored result is on a completed, unsuppressed row with exactly one owned task, no unknown debt and a recorded attempt |
| CapeQuota.QuotasHold | ci/corpus/mailstrix/internal/cape/store_ingress.go:251-263 | In every reachable state rows and reserved bytes are within the global limit and every tenant's limit |
| CapeQuota.TotalAdds | ci/corpus/mailstrix/internal/cape/store_ingress.go:253-255 | A new row adds exactly its weight to each sum |
| CapeQuota.TotalRows | ci/corpus/mailstrix/internal/cape/store_ingress.go:253-254 | The row quota counts the rows |
| CapeScheduler.StepKeeps | ci/corpus/mailstrix/internal/cape/scheduler.go:74-143 | Every step keeps the scheduler's bookkeeping: no job has two packets, or a packet and a request in the air; every open attempt is covered; slots stay within the limits |
| CapeDelivery.NothingIsLost | ci/corpus/mailstrix/internal/cape/scheduler.go:249-264 | Every open attempt of this process is in the air or waits to be persisted, even when the begin call failed after its commit |
| CapeDelivery.SubmissionsBounded | ci/corpus/mailstrix/internal/cape/store_state.go:51-60 | Requests in the air never exceed the concurrency limits, in all and for each tenant |
| CapeDelivery.BeginsOnlyWhenQueueEmpty | ci/corpus/mailstrix/internal/cape/scheduler.go:131-133 | A new attempt appears only in a dispatch that finds no packet pending |
| CapeDeadlines.BeginsExactlyWhen | ci/corpus/mailstrix/internal/cape/store_state.go:22-85 | In every reachable state a dispatch opens an attempt if and only if no packet is pending, the job has no request in the air, the clock is in step, the row is queued at that version, its generation is not paused, its hour has not passed and its backoff has, both slot limits allow it and all three buckets hold a token |
| CapeDeadlines.NoAttemptOutOfTime | ci/corpus/mailstrix/internal/cape/store_state.go:22-85 | Whatever the step, an attempt appears only under those conditions |
| CapeDeadlines.DeadlinesHold | ci/corpus/mailstrix/internal/cape/store_ingress.go:273-276 | In every reachable state each row has its three deadlines from its creation, and its last attempt began within the first hour |
| CapeDeadlines.ExpiresExactlyWhenDue | ci/corpus/mailstrix/internal/cape/lifecycle.go:236-266 | A deadline step that commits ends the row, at store time, if and only if it is published, not terminal, and a day old, or queued and an hour old |
| CapeDeadlines.BatchExpiresDue | ci/corpus/mailstrix/internal/cape/lifecycle.go:236-270 | So does a whole pass, for exactly the rows of its batch |
| CapeEffects.CancelTakesEffect | ci/corpus/mailstrix/internal/cape/lifecycle.go:99-141 | Cancelling ends every published row, at store time also when the clock was set back, and leaves a staging row to its writer |
| CapeEffects.ReportsExactlyWhen | ci/corpus/mailstrix/internal/cape/transitions.go:148-180 | News is taken if and only if the clock is in step, the row is in the state that waits for it, owns exactly that task of that generation, and is less than a day old |
| CapeEffects.DeletesExactlyWhen | ci/corpus/mailstrix/internal/cape/lifecycle.go:164-191 | A deletion is recorded if and only if the row is terminal, of that generation, and owns the task |
| CapeEffects.RetainsExactlyWhen | ci/corpus/mailstrix/internal/cape/lifecycle.go:271-323 | Retention removes the payload of every row past submission, and deletes a row if and only if it ended a day ago and owes nothing |
| CapeEffects.RequestsExactlyWhen | ci/corpus/mailstrix/internal/cape/store_state.go:89-102 | A request takes its token exactly when the clock is in step and the bucket holds one, and changes nothing otherwise |
| CapeProgress.AdmitsExactlyWhen | ci/corpus/mailstrix/internal/cape/store_ingress.go:229-317 | In every reachable state a new job is admitted if and only if the clock is in step, its generation is not paused, the volume has room, one more job of the largest size fits the global and the tenant's quota, and the tenant has owed no task for a week |
| CapeProgress.PublishesExactlyWhen | ci/corpus/mailstrix/internal/cape/store_ingress.go:110-158 | A finished writer's row is queued if and only if it is staging and less than half a minute old and no row with the same content and policies is queued or owes an attempt |
| CapeProgress.JobCompletes | ci/corpus/mailstrix/internal/cape/scheduler.go:74-143 | From every reachable state in which nothing stands against a queued job, dispatch, answer, record and two polls complete it with its mapped result, its slot free and no packet left |
| CapeDelivery.PersistDelivers | ci/corpus/mailstrix/internal/cape/scheduler.go:341-390 | While its row exists, one untroubled try removes a packet and closes the attempt it covers: a record never conflicts |
| CapeSlots.SlotKeptIff | ci/corpus/mailstrix/internal/cape/store_state.go:150-158 | In every reachable state, of all ways in which the outcome of an attempt that holds a slot can be applied, exactly a commit that reports an error keeps the slot |
| CapeSlots.SlotsAreHeld | ci/corpus/mailstrix/internal/cape/store_state.go:79-83 | In every run in which no record's commit reports an error, each slot is held for a stored row whose attempt is unrecorded and owed |
| CapeSlots.LeakLasts | ci/corpus/mailstrix/internal/cape/store_state.go:150-158 | A slot whose job is recorded and neither queued nor staging, or is gone, stays taken by the same tenant over every run without a crash |
| CapeSlots.LostSlotsStop | ci/corpus/mailstrix/internal/cape/store_state.go:51-60 | With as many kept slots as the concurrency limit, their jobs recorded or gone, queued again or not, no attempt begins until a restart; with as many of one tenant as its limit none of that tenant does |
| CapeSlots.OneErrorStopsTenant | ci/corpus/mailstrix/internal/cape/store_state.go:51-60 | Where a tenant may have one submission, a single commit error in the record of any outcome ends that tenant's submissions until a restart |
| CapeWitness.SlotCanOutliveItsAttempt | ci/corpus/mailstrix/internal/cape/store_state.go:150-158 | A run of seven steps ends with a recorded row, nothing in the air, nothing pending, and its slot still taken |
| CapeWitness.OneCommitErrorStops | ci/corpus/mailstrix/internal/cape/store_state.go:51-60 | With one slot that single commit error ends all submissions until a restart |
| CapeDelivery.LostRowBlocks | ci/corpus/mailstrix/internal/cape/scheduler.go:372-375 | A packet whose row was deleted is never dropped, and until a restart no further attempt begins |
| CapeWitness.PacketCanOutliveItsRow | ci/corpus/mailstrix/internal/cape/scheduler.go:372-375 | Such a state is reachable in seven steps |
| CapeCleanup.AcknowledgedMeansAll | ci/corpus/mailstrix/internal/cape/lifecycle.go:193-215 | In every reachable state a row marked as acknowledged has no unknown debt and every one of its tasks was acknowledged |
| CapeCleanup.CleanupTask | ci/corpus/mailstrix/internal/cape/scheduler.go:172-188 | The first unacknowledged task of a terminal row before its cleanup deadline; none exactly when there is none to delete |
| CapeBuckets.ThreeTokens | ci/corpus/mailstrix/internal/cape/store_state.go:61-68 | In a sane store the three takes succeed exactly when stored tokens and refill make one in each bucket, and otherwise the answer is throttled |
| CapeBuckets.DispatchTakesAllOrNone | ci/corpus/mailstrix/internal/cape/store_state.go:61-68 | A begin takes one token from each of its three buckets and touches no other; one that is throttled or rolled back takes none |
| CapeBuckets.BucketsStaySane | ci/corpus/mailstrix/internal/cape/store_state.go:104-131 | In every reachable state a stored bucket holds between zero and its rate, and was last used no later than store time |
| CapeBuckets.SubmissionRateBounded | ci/corpus/mailstrix/internal/cape/store_state.go:61-68 | Between any two moments of any run the attempts begun, by everyone or by one tenant, number at most the rate plus the rate times the minutes of store time between them |
| TokenBucket.StaysSane | ci/corpus/mailstrix/internal/cape/store_state.go:104-131 | Tokens stay between zero and the rate over every run of takes |
| TokenBucket.RateLimit | ci/corpus/mailstrix/internal/cape/store_state.go:104-131 | Any stretch of any run of takes grants at most the rate plus what the stretch earns |
| TokenBucket.EarnedIsProduct | ci/corpus/mailstrix/internal/cape/store_state.go:114-123 | What a stretch earns is the rate times its minutes |
| TokenBucket.TakeExact | ci/corpus/mailstrix/internal/cape/store_state.go:104-131 | A take is granted exactly when the stored tokens and the rate times the minutes since the stamp make one; what is left is that, at most the rate, less one |
| TokenBucket.FullAfterAMinute | ci/corpus/mailstrix/internal/cape/store_state.go:115-123 | A minute after its stamp a bucket grants and leaves the full rate less one, like one that was never used |
| TokenBucket.GrantedIffHolds | ci/corpus/mailstrix/internal/cape/store_state.go:104-131 | A sane bucket grants exactly when it holds a token and is throttled otherwise |
| TokenBucket.RefusedMeansUsed | ci/corpus/mailstrix/internal/cape/store_state.go:104-131 | A take is refused only if the grants since any earlier take used up what was earned between, up to the rate, less than one token short; so after a minute of takes only if the whole rate was granted |
| Batches.BatchBounded | ci/corpus/mailstrix/internal/cape/lifecycle.go:39-73 | A call returns at most 256 jobs, all eligible |
| Batches.NoJobStarves | ci/corpus/mailstrix/internal/cape/lifecycle.go:39-73 | From any cursor every eligible job is returned within one call more than the number of full batches, and so within twice that number |
| Batches.ReachedIn | ci/corpus/mailstrix/internal/cape/scheduler_store.go:46-79 | The number of calls after which a given job is returned, counting the wrap inside one call |
| Callback.NoEventTwice | ci/corpus/mailstrix/internal/cape/callback.go:261-350 | No run accepts a signed event twice while the second clock reading of each callback is at most so much behind and so much ahead of the first that the two allowances together are under 55 seconds |
| Callback.ReplayAccepted | ci/corpus/mailstrix/internal/cape/callback.go:266-273 | For any two allowances that together reach 55 seconds a replay within them is accepted |
| Callback.ReplaySafeIff | ci/corpus/mailstrix/internal/cape/callback.go:261-350 | For every pair of allowances, behind and ahead: replay is impossible in all runs within them if and only if together they are under 55 seconds |
| Callback.KeyRateLimited | ci/corpus/mailstrix/internal/cape/callback.go:340-345 | At most ten callbacks of a key are accepted in any minute of store time, purging included |
| CallbackAccepts.AcceptedIff | ci/corpus/mailstrix/internal/cape/callback.go:261-351 | In every run a callback for a known job is accepted and remembered if and only if its key, its signed time and both clocks allow it, its event was not accepted in the last eleven minutes of store time, and fewer than 10,000 events were, fewer than 1,000 of its tenant, and fewer than ten of its key in the last minute; otherwise nothing changes |
| StoreClock.StoreTime | ci/corpus/mailstrix/internal/cape/store.go:477-495 | Store time is the later of the reading and the high-water mark, refused when the reading is more than five seconds behind |
| AliasLines.JoinSplit | ci/sync_deprecated_aliases.py:56-60 | Splitting into lines loses nothing |
| AliasLines.GroupConcat | ci/sync_deprecated_aliases.py:56-80 | A closed preamble followed by complete blocks is grouped back into exactly those |
| AliasSplit.SplitIsClean | ci/sync_deprecated_aliases.py:56-86 | A clean split gives a preamble without keys and complete blocks parsed to their own keys; a block after it closes the preamble |
| AliasSplit.SplitAfterConcat | ci/sync_deprecated_aliases.py:56-86 | Split after concatenate is the identity on such a preamble and blocks |
| AliasSplit.SplitText | ci/sync_deprecated_aliases.py:56-86 | The line loop computes the split, exit on a document marker or an unparsable block included |
| AliasRewriter.OwnedBlocksKept | ci/sync_deprecated_aliases.py:89-118 | The alias's own blocks survive in order, byte for byte, and no others of that kind appear |
| AliasRewriter.MatcherFromTarget | ci/sync_deprecated_aliases.py:89-118 | Every matcher block of the result is the target's block for its key |
| AliasRewriter.TargetAllPresent | ci/sync_deprecated_aliases.py:89-118 | Every matcher key of the target is in the result |
| AliasPosition.TargetOnlyBlocksFollow | ci/sync_deprecated_aliases.py:104-118 | Each block up to the alias's last matcher block stays, is replaced or goes, in its place; then come the target's other matcher blocks; then what the alias owns behind. Without a matcher block in the alias they come last |
| AliasPosition.ResultKeys | ci/sync_deprecated_aliases.py:104-118 | The keys of the result in order: those of the alias that are owned or in the target, with the target's other keys behind the last matcher block |
| AliasPosition.KeysInOrder | ci/sync_deprecated_aliases.py:99-101 | The target's matcher keys stand in the order of their first occurrence |
| AliasPosition.LastForIsLast | ci/sync_deprecated_aliases.py:99-101 | A key's block is the last one the target has for it |
| AliasRewriter.RewriteIdempotent | ci/sync_deprecated_aliases.py:89-118 | Rewriting the blocks again changes nothing |
| AliasRewriter.RewriteMeaning | ci/sync_deprecated_aliases.py:89-129 | Merged block by block, the result means the alias's own keys plus the target's matcher |
| AliasRewriter.RewriteSplits | ci/sync_deprecated_aliases.py:89-118 | The rewritten text splits back into the preamble and the rewritten blocks if and only if the preamble is ended, or the alias has no block and the target no matcher key; one alias block is enough |
| AliasTwice.RewriteTwice | ci/sync_deprecated_aliases.py:89-118 | A second rewrite leaves the text alone if and only if the same condition holds |
| AliasTwice.UnendedComment | ci/sync_deprecated_aliases.py:89-118 | A one-line comment without a newline: the rule's block is swallowed by the comment, and the next rewrite adds it once more |
| AliasRewriter.RewriteMatcher | ci/sync_deprecated_aliases.py:89-118 | The loops compute the rewritten text |

## Left out

- Masks are sets of numbers below 64; the bit tricks of `ac_lowest_bit` and the compiler builtins are not modelled.
- The literal signature and rule tables: the results hold for every table with distinct category ids below 64 and non-empty patterns.
- Allocation is a yes-or-no parameter; partial allocation and the cleanup of a failed build are not modelled.
- Percent-decoding is an arbitrary function that does not grow its input; lower-casing is modelled byte by byte.
- The nginx request plumbing, header and body scanning, directives, logging and the status endpoint.
- Red-black rebalancing and deletion: any tree with the same keys in order may result, so link updates, colours and aliasing of the tree are not captured. The tree is a value inside the zone object, the queue a sequence.
- The hash of an address is part of its key; that it is a function of the address is not used.
- Reclaim progress while lookups are interleaved: lookups move nodes ahead of the cursor, so only undisturbed calls are claimed.
- SQL, WAL checkpoints, file system calls, HTTP, TLS, HMAC, JSON and the size limits of encoded rows.
- Tokens are real numbers; float64 rounding is not modelled.
- Random identifiers: an id that was ever drawn is not drawn again, and ids are numbers below a fixed bound.
- Tenant authorisation of a call: a call for another tenant's row is a refusal and so no step. Request validation in `enqueue` and `ValidateStoreLimits` filling in defaults.
- Ingress watchdogs, classifiers and closing: a writer may stop at any time, and the free-space probe is a yes-or-no parameter.
- CapeStore.Reschedule: stands for `reserveRead`, `extendRetry`, `markCleanupDeadlines` and the wake-up of a callback alike, and allows any new polling times, because every theorem holds whatever they are.
- CapeProtocol.Apply: takes maintenance row by row and lets the payload removal after a commit happen at any later time, which allows more interleavings than the mutex does.
- CapeProtocol.CrashStep: a staging row has one file or none after a crash, under either name, since a rename is taken to be atomic; an unlink that a crash did not undo may still be undone by the next one, because the process may have died alone.
- CapeService.Service.Recover: rows that cannot be read, names that are no job files, unreadable entries, failing unlinks and a failing last sync are not modelled; each makes the source refuse to start.
- CapeService.Service.Publish: does not say which reusable row is returned, because the query has no order.
- Which candidate a dispatch pass picks, and its tenant rotation: a dispatch of any listed row is a step.
- The event table of callbacks and the job protocol are two models; they share the clock rule and a callback's effect on its row is a reschedule.
- AliasRewriter.RewriteMeaning: speaks of the merge of per-block parses, because the YAML parser is a parameter; a parse of the whole text could differ where one block refers to an anchor in another.
- YAML parsing is a parameter that maps a block to one key and value; the meaning of a file is the merge of its blocks, the last one winning.
- `matcher_of`, `alias_target`, file discovery and the check mode of the alias script.
