# Octroi gateway: admission, metering and its stores, in Dafny

Octroi is an HTTP gateway in front of tools. It decides whether a request may pass (rate limits,
spending limits), forwards it, records what it cost, and answers queries over what was recorded.
This project models those parts and proves what they guarantee. `dafny verify dfyconfig.toml` checks all of it.

| file | part of the gateway |
|---|---|
| `Protocol.dfy`, `CheckSteps.dfy` | budget checks, forwarding, recording, flushing and deletions as one concurrent protocol; its checks against the check methods |
| `InFlight.dfy`, `Overshoot.dfy`, `AgentDeletion.dfy` | how many calls can be in flight, and the bounds on overspending |
| `Calls.dfy`, `Burst.dfy`, `Slack.dfy`, `AgentSlack.dfy` | runs that attain the bounds |
| `Budget.dfy`, `Proxy.dfy`, `Collector.dfy` | the budget checks, the proxy handler and the collector object, step by step |
| `TokenBucket.dfy`, `LimiterRun.dfy`, `LimiterKeys.dfy`, `RateLimiter.dfy`, `ToolLimiter.dfy`, `ToolLimiterRun.dfy` | one bucket, many keys, the keys of the scopes, the shared limiter object, the three-scope tool limiter, and interleaved requests |
| `LoginLimiter.dfy`, `SweepRaces.dfy` | the fixed-window login limiter, its sweeps, and sweeps that attempts interrupt |
| `Percentile.dfy` | percentiles from merged histograms |
| `Pagination.dfy`, `Cursor.dfy`, `Listing.dfy` | pages, cursors as text, and walks over a changing table |
| `Sql.dfy`, `Metering.dfy`, `StoreListings.dfy`, `Updates.dfy` | query compilation, the transaction store, the list operations and the partial updates of the agent and tool stores |
| `Teams.dfy` | team administration and its two last-admin checks |
| `Template.dfy`, `Registry.dfy`, `RegistryRaces.dfy` | endpoint templates, the tool registry, and its updates when they interleave |
| `Common.dfy` | definitions shared by all |

## How things are modelled

- Instants and durations are integers (nanoseconds). Tokens are scaled by the window, so refills are exact:
  a bucket of rate R holds at most R * W, a request costs W, and d units of time earn d * R.
- Costs and percentile estimates are `real`. A header that parses to no real number counts as not parsed.
- The database is a sequence of rows with distinct keys. `ORDER BY .. DESC` is `Pagination.Select`, proved to be the
  only descending list of the wanted rows; a statement is a list of conditions with numbered placeholders.
- Strings that go through base64 are byte sequences, held as characters below 256. The written form of a
  timestamp, the calendar, URL parsing, number parsing and pattern matching are parameters.
- The concurrent parts are a transition system. Its steps are the database queries and the sections under the
  collector's lock; any number of request threads and one ticker take them in any order. Whatever the code under
  a lock does is one step; a query that fails, a missing row, a failed insert are steps of their own.
- Deleting an agent or a tool deletes its budget rows and its stored transactions (`ON DELETE CASCADE`), and no
  transaction can be stored without its agent and tool, so a batch that holds one is lost as a whole. One statement
  takes at most 65535 parameters, so neither can a batch of more than 5041 transactions be stored.
- The limiter's lock is held for one operation. `ToolLimiter` describes a request that nothing interrupts;
  `ToolLimiterRun` lets the operations of all requests interleave, between scopes and between Allow and Status.
  Tool and agent IDs are UUIDs, so keys of different scopes never meet (`LimiterKeys.UuidScopesAreSeparate`).
- A clock reading inside one limiter operation is taken once. `RateLimiter.CreatedThenRefilled` shows that the
  separate readings for creating and refilling make no difference; the later reading of `Status` is a parameter.

## What the proofs found

- Spending is not bounded by the limit unless calls are free (`Slack.LimitHoldsIff`). A check sees only what is stored,
  so calls under way, buffered or being stored go uncounted. With B the batch size and N the number of concurrent
  requests, at most (N+1)(B-1+N) - N(N-1)/2 calls are in that state at once (`InFlight.UnsettledIs`).
- Deletions take stored spending away. `Overshoot.OvershootBound` bounds spending over every run by the limit, the calls
  in flight, what failed inserts lose, what failing checks let through, and what was deleted. Each part is needed: over
  runs without failures that delete at most f from the window, the least bound is the limit, f and the calls in flight
  (`Slack.BoundIsSharp`). So a tool's total has that bound without f exactly as long as nothing stored in the window is
  deleted (`Slack.ToolBoundSurvivesIff`), and none when its agents can be deleted and replaced (`Slack.ToolHasNoBound`).
- One agent on one tool gains little by being deleted: its budget row goes too, so only checks that had read the row
  pass, one call of every request thread (`AgentDeletion.AgentOvershootBound`), and no fewer
  (`AgentSlack.AgentBoundIsSharp`).
- `checkLastTeamAdmin` returns the empty string for "safe", so a team whose name is empty is not protected and hides
  other violations. `Teams.PassedCheckOrphansIff` says exactly when a passed check leaves a team without an admin, and
  `Teams.UnnamedTeamHidesOrphan` is a concrete case.
- `RemoveTeamMember` reads the user's first entry for the team and counts entries, not users. It lets the last admin go
  exactly when that user has two admin entries, or an entry with another role first (`Teams.RemovalOrphansIff`);
  `Teams.DuplicateEntriesOrphan` is a case. On clean lists it agrees with the other check (`Teams.ChecksAgree`).
- The percentile reads the first bucket as starting at zero. It is monotone in q, and stays between zero and the last
  finite bound, exactly when that does no harm (`Percentile.MonotoneIff`, `Percentile.WithinBoundsIff`).
- The login limiter's windows start with an attempt, so a closed interval of k windows is bounded by (k+1) * limit
  attempts (`LoginLimiter.IntervalBound`), atomic sweeps included (`LoginLimiter.TableIntervalBound`). A sweep tests an
  entry and deletes it later; each running window it deletes that way admits one limit more
  (`SweepRaces.RacedIntervalBound`, attained by `SweepRaces.DropAdmitsAnotherLimit`).
- `Service.Update` with a mode of `service` and an endpoint skips the endpoint check.
  `Registry.ServiceEndpointKeptIff` is the exact condition, `Registry.UncheckedServiceEndpoint` a case.
- `Service.Update` validates against a row it reads and writes in a second query. When updates interleave, stored
  templates keep resolving exactly when every update is still acceptable at its write
  (`RegistryRaces.InterleavedUpdatesIff`), as when no row changes under a pending update
  (`RegistryRaces.UntouchedRunIsSafe`); `RegistryRaces.RacedUpdates` is a family of pairs that are not.
- A negative spending limit does not limit an agent. A tool's refuses every request whose sum can be read, as long as no
  recorded cost is negative (`Budget.NegativeLimits`). Prices are not validated, so costs can be negative; the bounds on
  overspending are for costs from zero to a cap.
- Template resolution is one pass. When no literal brace is left in the template and no value has one, the result is
  stable (`Template.ResultIsStable`); otherwise it can hold a new placeholder (`Template.OnePassOnly`).

## Model

| member | source | states |
|---|---|---|
| Protocol.StepKeepsInv | internal/metering/collector.go:72-120 | every step of every thread keeps the buffer bound, the batch sizes, the order of recorded transactions, and clock readings in the past |
| Protocol.BufferBound | internal/metering/collector.go:72-101 | over every run the buffer holds at most batchSize-1 plus the threads yet to flush, batches are not empty and not larger than batchSize-1+N, and the buffer is below batchSize once all threads are idle |
| Protocol.BatchesAreConserved | internal/metering/collector.go:72-120 | over every run the drained batches in order, then the buffer, are the recorded transactions in order; each batch is stored once, lost once, or being stored by exactly one thread |
| Protocol.WeightIsConserved | internal/metering/collector.go:93-120 | for every way of weighing transactions, recorded equals stored plus deleted with its agent or tool plus lost plus buffered plus held by threads |
| Overshoot.ReadCovers | internal/agent/budget_store.go:102-125 | the sum a check reads is at least what is stored for the watched window, also when the clock moved on since the check read it |
| Overshoot.ChecksExplained | internal/proxy/proxy.go:132-150 | a thread gets past a check only if the stored spending was under the limit, or the check failed or compared with no limit or a larger one |
| InFlight.StepKeepsRanked | internal/metering/collector.go:72-101 | every step keeps the order of the batches in flight: the batch a request thread is storing leaves room for the threads that were already storing one, and nothing is buffered while all request threads store |
| InFlight.HeldByAll | internal/metering/collector.go:93-120 | what all threads hold at once weighs at most one largest batch for the ticker and, for the request threads that are storing, batches that shrink by one from each to the next |
| InFlight.UnsettledIs | internal/metering/collector.go:72-101 | the number of calls that can be unsettled at once, in closed form: (N+1)(B-1+N) - N(N-1)/2 |
| Overshoot.Settled | internal/proxy/proxy.go:132-150 | when stored spending is under the limit, what calls under way, buffered or being stored can add is at most Unsettled calls of the greatest cost, leaving out what was lost and what was deleted |
| Overshoot.ForgottenStays | migrations/000004_transactions_cascade.up.sql:1-7 | draining and storing add nothing to what was deleted: no transaction is stored whose agent or tool is gone |
| Overshoot.StepKeepsBounded | internal/proxy/proxy.go:132-150 | every step, the deletion of an agent or a tool included, keeps the bound on what was spent in the window and may still be added |
| Overshoot.OvershootBound | internal/proxy/proxy.go:132-150 | over every run, scope, window and positive limit, spending in the window stays below the limit plus what inserts lost plus what was deleted with its agent or tool plus the cost of the unsettled and the unguarded calls |
| Overshoot.GuardedOvershoot | internal/agent/budget_store.go:96-202 | with no failed insert and every pass guarded, spending stays below the limit plus what was deleted plus Unsettled calls, for costs in [0, cap] |
| Slack.OvershootingRun | internal/metering/collector.go:72-120 | for every amount y below the limit and, on a tool, every amount f there is a run without failures, all of whose passes were guarded, that spends and deletes f and then spends y and Unsettled calls of cost cap |
| Slack.BoundIsSharp | internal/proxy/proxy.go:132-150 | over all guarded runs without failures priced up to cap > 0 whose deletions take at most f from the window, spending stays below x if and only if x is at least the limit plus f plus Unsettled calls of cost cap; for one agent this is said of f = 0 |
| Slack.ToolBoundSurvivesIff | migrations/000004_transactions_cascade.up.sql:1-3 | for a tool, the limit plus Unsettled calls bounds those runs if and only if f is zero |
| Slack.ToolHasNoBound | internal/agent/budget_store.go:184-200 | for a tool no amount bounds the guarded runs without failures: its agents spend, are deleted and replaced |
| AgentDeletion.AgentOvershootBound | internal/agent/budget_store.go:102-125 | whatever is deleted, what one agent spends on one tool stays below the limit plus what inserts lost plus the unsettled and the unguarded calls plus one call of every request thread |
| AgentSlack.AgentBoundIsSharp | internal/agent/budget_store.go:102-125 | over all guarded runs without failures priced up to cap, whatever they delete, one agent's spending stays below x if and only if x is at least the limit plus the Unsettled calls and one of every request thread, for configurations whose largest batch fits into one statement |
| Slack.LimitHoldsIff | internal/proxy/proxy.go:132-150 | over all such runs, whether they delete or not, for cap >= 0, spending stays below the limit if and only if cap is zero |
| CheckSteps.AgentCheckDecides | internal/proxy/proxy.go:132-140 | the steps of an agent check that nothing interrupts end past the check exactly when the check method answers allowed or an error, and change nothing else; a row is found only for an agent and a tool that exist |
| CheckSteps.ToolCheckDecides | internal/proxy/proxy.go:142-150 | the same for the check of a tool's total, which ends in forwarding |
| Collector.Collector.Append | internal/metering/collector.go:72-76 | the locked part of Record appends one transaction and says whether the buffer reached the batch size |
| Collector.Collector.Drain | internal/metering/collector.go:93-101 | the locked part of flush takes the whole buffer and leaves it empty |
| Collector.Collector.Flush | internal/metering/collector.go:93-120 | an undisturbed flush sends the buffer as one batch, stored or lost, and sends nothing when it is empty |
| Collector.Collector.Record | internal/metering/collector.go:72-90 | an undisturbed Record, whatever the buffer holds: the transaction joins it or leaves with all of it, in order; the buffer ends empty or below the batch size |
| Budget.SetLimitsDecide | internal/agent/budget_store.go:22-36 | after an upsert exactly the new limits decide for that agent and tool, and every other agent and tool is answered as before |
| Budget.DeletedLimitsLetThrough | internal/agent/budget_store.go:82-91 | after a delete everything is let through for that agent and tool, and every other is answered as before |
| Budget.BudgetStore.CheckBudget | internal/agent/budget_store.go:96-151 | the answer is AgentAnswer of the stored rows; an error exactly when the row is missing or a query fails; what remains of a limit and the spending since its window began make up the limit until that is used up, and the request is allowed exactly while every positive limit has something left |
| Budget.BudgetStore.CheckToolGlobalBudget | internal/agent/budget_store.go:155-202 | the same for a tool's total over the window its row names, an unknown window being a month and only a limit of zero unlimited |
| Budget.AgentAnswerWithOneMore | internal/agent/budget_store.go:108-149 | one more stored transaction changes nothing in the agent check if it is of another agent or tool or older than the month, nothing of the daily remainder if it is older than the day, and otherwise lowers what remains by its cost, down to zero |
| Budget.AgentWindowStartsAfresh | internal/agent/budget_store.go:102-149 | while nothing of the agent on the tool is stored since the day began, the whole daily limit remains and only the month can refuse; nothing since the month began, and the request is allowed |
| Budget.ToolAnswerWithOneMore | internal/agent/budget_store.go:171-201 | the same of a tool's total: only the tool's own transactions since its window began count, whoever made them, each with its cost |
| Budget.ToolWindowStartsAfresh | internal/agent/budget_store.go:171-201 | while nothing on the tool is stored since its window began, all of its limit remains, and only a negative limit refuses |
| Budget.NegativeLimits | internal/agent/budget_store.go:129-201 | a negative limit never limits an agent; for a tool whose sum could be read it admits only if some recorded cost is negative |
| Proxy.ChargedCost | internal/proxy/proxy.go:270-282 | a header that parses to a non-negative number is the cost, source "reported"; otherwise the price of a tool priced per request, and nothing for any other, source "flat" |
| Proxy.RecordTransaction | internal/proxy/proxy.go:270-299 | the recorded transaction carries the request's identity, method, path, latency and sizes, its outcome and its charge |
| Proxy.ServeHTTP | internal/proxy/proxy.go:86-268 | a transaction is recorded exactly when tool and agent are known, no check answers "not allowed" and the endpoint resolves and builds a request; otherwise the status is the first that applies of 400, 404, 401, 429, 403 and 502; a failed check does not block; a forwarded request leaves exactly one transaction, answered or not |
| Proxy.ServeWithBudgets | internal/proxy/proxy.go:132-150 | with both budget checks made on the store, a request leaves a transaction only if both let it through, and is answered 403 if either of them stops it |
| Proxy.TemplateGateIsOpen | internal/proxy/proxy.go:152-161 | for a tool stored by any run of registry calls, each one atomic step, the template gate never blocks |
| Proxy.TemplateGateIsOpenInSafeRuns | internal/proxy/proxy.go:152-161 | nor does it when updates interleave, as long as each is still acceptable when it is written |
| Proxy.SourceSurvivesStorage | internal/proxy/proxy.go:284-299 | the cost source the proxy recorded is what is stored and read back, never the default |
| Metering.BuildWhereClause | internal/metering/store.go:191-231 | the compiled conditions hold of exactly the rows that have the id, or else are in a non-empty list of ids, for agents and for tools, and lie in the interval; placeholders are $1..$n in order, one argument each |
| Metering.AddFilter | internal/metering/store.go:195-218 | a single id, else a non-empty list, filters one column; an empty list does not filter |
| Metering.CompileConditions | internal/metering/store.go:133-155 | with the cursor appended the conditions mean the filter and the key bound, still numbered $1..$n |
| Metering.CompileListing | internal/metering/store.go:133-163 | for every table the statement yields the newest limit+1 rows asked for below the cursor, by agents, tools and interval, the limit being the last placeholder |
| Metering.ListTransactions | internal/metering/store.go:127-187 | the listing holds the newest rows asked for by agents, tools and interval below the cursor, none that was not asked for, and leaves one out only when the page is full; it ends with the right next cursor; an unreadable cursor is an error; a limit below one means fifty |
| Metering.BatchInsert | internal/metering/store.go:26-73 | placeholder 13i+k+1 is column k of row i, each row holds the fields of its transaction in the order of the columns, an empty cost source as "flat", and reads back as it; an empty batch sends nothing |
| Cursor.Base64RoundTrip | internal/metering/store.go:234-244 | text in either base64 alphabet is read back as the bytes it was made from |
| Cursor.CursorRoundTrip | internal/metering/store.go:234-254 | a cursor read back gives its instant and id, also for ids with bars, and is never empty |
| Cursor.ReadableIff | internal/metering/store.go:240-254 | a cursor is read as an instant and an id exactly when it decodes to that instant, the first bar, and that id |
| Cursor.TestVectors | internal/metering/store.go:234-237 | both forms of base64 agree with the test vectors of RFC 4648, section 10, padded or not |
| Cursor.BreaksAreSkipped | internal/metering/store.go:240-244 | line breaks anywhere in the text do not matter, as in the base64 library |
| Pagination.SelectFacts | internal/metering/store.go:157-160 | selection has exactly the wanted rows, by strictly descending key |
| Pagination.OrderedOneWay | internal/metering/store.go:157-160 | the wanted rows have only one descending order |
| Pagination.PageFacts | internal/metering/store.go:180-185 | a page is the first rows wanted, with a cursor exactly when more are wanted, made from its last row |
| Pagination.SelectsFirstRows | internal/metering/store.go:157-181 | what is selected, up to n rows, is in the table, asked for, past the bound and newest first; a row is left out only when there are n that are no older |
| Pagination.WalkDescends | internal/metering/store.go:127-187 | keys strictly descend over a whole walk of a changing table |
| Pagination.WalkIsSound | internal/metering/store.go:127-187 | every row returned matched, in a table the walk saw |
| Pagination.WalkReturnsOnce | internal/metering/store.go:127-187 | a finished walk returns every key that matched in each table it saw at exactly one place |
| Pagination.UnchangedTableWalk | internal/metering/store.go:127-187 | over an unchanged table a walk with enough requests ends, and its pages together are the selected rows in order |
| Pagination.UnchangedTableLength | internal/metering/store.go:127-187 | with one limit it takes as many requests as there are full or partial pages |
| Listing.CursorsAreGood | internal/metering/store.go:234-254 | in either alphabet a written cursor is not empty and is read back as the key it was written for, which is all a walk needs |
| Listing.ListWalkMirrors | internal/metering/store.go:127-187 | walking by text cursors is walking by keys: no cursor given out is refused or misread |
| Listing.ListWalkDescends | internal/metering/store.go:127-187 | over a whole walk by text cursors of a changing table keys strictly descend, so none is listed twice |
| Listing.ListWalkIsSound | internal/metering/store.go:127-187 | every row listed by such a walk matched, in a table the walk saw |
| Listing.ListWalkReturnsOnce | internal/metering/store.go:127-187 | a complete walk lists every key that matched in each table it saw at exactly one place |
| Listing.ListWalkOfUnchangedTable | internal/registry/store.go:156-220 | over an unchanged table such a walk is complete and lists the matching rows in order |
| Sql.NarrowToBound | internal/registry/store.go:166-176 | the cursor condition, with its two arguments next in line, adds exactly the key bound |
| Sql.BothYield | internal/registry/store.go:162-196 | a statement for a filter and a bound, written in either order, yields the first rows wanted of any table |
| StoreListings.AgentStatement | internal/agent/store.go:142-167 | with or without teams and cursor, the statement yields the agents of the teams below the cursor |
| StoreListings.ListAgents | internal/agent/store.go:136-193 | the listing holds the newest agents of the given teams, or of all teams when none are given, below the cursor; it leaves one out only when the page, twenty by default, is full |
| StoreListings.ToolStatement | internal/registry/store.go:162-196 | numbered by a running index, the statement yields the matching tools below the cursor |
| StoreListings.ListTools | internal/registry/store.go:337-400 | the listing or search holds the newest tools whose name or description matches, below the cursor; it leaves one out only when the page, twenty by default, is full |
| Updates.AssignsWhatIsGiven | internal/registry/store.go:222-300 | a statement made of the given fields, numbered by a running index, sets exactly those columns, each to the given value, whatever arguments follow |
| Updates.CompileToolUpdate | internal/registry/store.go:223-318 | no statement when nothing is given; else placeholders $1..$n in order with the id next, and the statement turns the row of every tool into the row of the patched tool and sets the time of the update |
| Updates.CompileAgentUpdate | internal/agent/store.go:235-274 | the same for the three fields of an agent |
| Updates.NothingPatches | internal/registry/store.go:304-306 | an update that gives nothing leaves the tool as it is, so reading it back answers it |
| TokenBucket.TokensAreLeastLevel | internal/ratelimit/ratelimit.go:60-94 | at a constant rate the tokens are the least, over all earlier touches, of a full bucket plus what was earned since minus what was admitted since |
| TokenBucket.TokensInRange | internal/ratelimit/ratelimit.go:60-94 | tokens are never negative and never above the largest rate in use |
| TokenBucket.RefusedIffEnvelopeWouldBreak | internal/ratelimit/ratelimit.go:81-94 | Allow refuses exactly when admitting would exceed the envelope from some earlier touch |
| TokenBucket.IntervalBound | internal/ratelimit/ratelimit.go:60-94 | an interval of length d admits at most R + R*d/W requests, for rates up to R |
| TokenBucket.TouchTwice | internal/ratelimit/ratelimit.go:62-76 | two refills at one rate are one refill |
| TokenBucket.StatusInvisible | internal/ratelimit/ratelimit.go:99-122 | Status calls anywhere in a run, followed by calls at their rate, change no Allow answer |
| TokenBucket.ResetAtIsTight | internal/ratelimit/ratelimit.go:113-121 | an idle bucket is not full before the reported reset and is full one nanosecond after it at the latest |
| TokenBucket.RemainingIsExact | internal/ratelimit/ratelimit.go:107-111 | remaining is exactly the number of Allow calls that would be admitted at that instant |
| LimiterRun.KeysAreSeparate | internal/ratelimit/ratelimit.go:45-94 | in a run over many keys each key answers as if it were alone |
| LimiterRun.ScopeEnvelope | internal/ratelimit/ratelimit.go:45-94 | in any run over many keys, the requests that took a token from a key in a closed interval of length d number at most R + R*d/W |
| ToolLimiterRun.AdmittedDebitsEveryCheck | internal/ratelimit/tool_limiter.go:63-75 | however its calls are interleaved with others, an admitted request has taken a token from the bucket of every applicable scope at that scope's rate |
| ToolLimiterRun.AllEnvelopesHold | internal/ratelimit/tool_limiter.go:63-77 | over every interleaving, the envelopes of the tool, the team and the agent hold at once for the admitted requests each scope applies to |
| ToolLimiterRun.UninterruptedServes | internal/ratelimit/tool_limiter.go:63-77 | the operations of an uninterrupted request are the calls the loop makes: Allow and then Status for every check, in order |
| ToolLimiterRun.UninterruptedIsARun | internal/ratelimit/tool_limiter.go:63-77 | what the check does for a request nothing interrupts is such a run: the same buckets, and admitted exactly when no Allow is refused |
| LimiterKeys.KeysEqualIff | internal/ratelimit/tool_limiter.go:40-57 | for any texts whatever, two scopes have one key exactly when they are the same scope or one's tool ID (or agent ID) reads as the other's key |
| LimiterKeys.UuidScopesAreSeparate | migrations/000001_initial.up.sql:2-19 | tool and agent IDs being UUIDs, distinct scopes never share a bucket, whatever the team names |
| RateLimiter.Limiter.constructor | internal/ratelimit/ratelimit.go:26-33 | a new limiter has no buckets |
| RateLimiter.Limiter.GetBucket | internal/ratelimit/ratelimit.go:45-58 | the bucket found or made has the given rate, and no other bucket changes |
| RateLimiter.Limiter.RefillCell | internal/ratelimit/ratelimit.go:62-76 | refilling in place is the refill of the bucket model and touches one bucket |
| RateLimiter.Limiter.Allow | internal/ratelimit/ratelimit.go:81-94 | the answer and all buckets afterwards are those of one debiting step on the key, at the caller's own rate if that is positive and otherwise at the default rate |
| RateLimiter.Limiter.Status | internal/ratelimit/ratelimit.go:99-122 | the reported limit is the caller's own rate if positive and otherwise the default rate; it, remaining, reset and all buckets afterwards are those of one step without debit |
| RateLimiter.FreshKeyAdmitsRate | internal/ratelimit/ratelimit.go:36-94 | on a key without a bucket exactly as many calls at one instant are admitted as the rate in effect, whatever the other keys hold |
| RateLimiter.NeverNegative | internal/ratelimit/ratelimit.go:107-119 | from a reachable bucket neither tokens nor the rate are negative when Status divides |
| RateLimiter.CreatedThenRefilled | internal/ratelimit/ratelimit.go:45-76 | two clock readings for creating and refilling act as one |
| ToolLimiter.ChecksHaveDistinctKeys | internal/ratelimit/tool_limiter.go:39-57 | the scopes of one request never share a bucket |
| ToolLimiter.EveryScopeAnswersAlone | internal/ratelimit/tool_limiter.go:63-77 | a request nothing interrupts is admitted exactly when every scope alone admits it; each bucket is charged by its own scope, and no other bucket changes |
| ToolLimiter.ToolRateLimiter.CheckToolRateLimit | internal/ratelimit/tool_limiter.go:20-78 | for a request nothing interrupts, the verdict charges every applicable scope, and reports the first scope that attains the least rate; a failed lookup charges nothing |
| LoginLimiter.IntervalBound | internal/api/router.go:47-74 | a closed interval of k windows admits at most (k+1)*limit attempts of one address |
| LoginLimiter.EachAddressAlone | internal/api/router.go:47-89 | in a run of attempts by all addresses and of sweeps, each address is answered as if alone and never swept |
| LoginLimiter.TableIntervalBound | internal/api/router.go:47-89 | the interval bound holds for each address in every such run |
| SweepRaces.RacedIntervalBound | internal/api/router.go:76-89 | with the test of an entry and its delete as separate steps, a closed interval of k windows admits at most (k+1) limits and one limit more for every running window that a sweep deletes inside it |
| SweepRaces.DropAdmitsAnotherLimit | internal/api/router.go:76-89 | that is attained: attempts between the test and the delete, and again after it, admit two limits in one instant |
| LoginLimiter.RetryAfterIsLeast | internal/api/router.go:63-70 | for a limit of at least one, the reported wait is the least whole number of seconds after which an attempt is admitted |
| LoginLimiter.ZeroLimitNeverAdmits | internal/api/router.go:63-70 | with a limit of zero nothing is ever admitted |
| LoginLimiter.LoginRateLimiter.Allow | internal/api/router.go:49-74 | the answer and the table afterwards are those of one attempt by the address |
| LoginLimiter.LoginRateLimiter.Cleanup | internal/api/router.go:77-89 | a sweep drops exactly the entries whose window has run out |
| Percentile.ListBuckets | internal/metrics/handler.go:392-398 | the sorted buckets list the merged map in increasing order, whatever order the map is walked in |
| Percentile.ListingUnique | internal/metrics/handler.go:392-398 | a merged map has only one sorted list of buckets |
| Percentile.StopCountsGrow | internal/metrics/handler.go:404-412 | where the scan stops the count is not below the one before, so the unsigned difference does not wrap, and is zero only for a rank that is not positive |
| Percentile.ScanBuckets | internal/metrics/handler.go:402-429 | the scan gives the estimate of the first finite bucket that reaches the rank, else the last finite bound, else zero |
| Percentile.Accumulate | internal/metrics/handler.go:374-386 | the loop over the family adds sample counts and merges buckets by bound |
| Percentile.HistogramPercentile | internal/metrics/handler.go:364-430 | the percentile is the estimate at q times the total over the listing of the merged buckets, and zero without a family |
| Percentile.HistogramPercentileWithLabel | internal/metrics/handler.go:294-360 | the labelled percentile is the plain one of the metrics that carry the label |
| Percentile.PercentileInterpolates | internal/metrics/handler.go:402-417 | in the bucket where the cumulative count first reaches the rank, the percentile e satisfies (e - lo) * (c1 - c0) = (rank - c0) * (hi - lo), and is the bound of a bucket that adds no count |
| Percentile.PercentileBeyond | internal/metrics/handler.go:422-429 | when no finite bucket reaches the rank, the percentile is the greatest finite bound, or zero without one |
| Percentile.OnlyLabelledCount | internal/metrics/handler.go:294-325 | a metric without the label, or with another value of it, counts for nothing, and a family whose metrics all have it has its plain percentile |
| Percentile.EstimateInBucket | internal/metrics/handler.go:408-416 | a positive rank gives an estimate inside the bucket the scan stops in, above its lower end |
| Percentile.PercentileMonotone | internal/metrics/handler.go:364-430 | when the first bucket has no negative bound, or is empty, the percentile is monotone in q |
| Percentile.MonotoneIff | internal/metrics/handler.go:402-419 | a family's percentile is monotone in q exactly when it has no samples, or its first bucket has no negative bound or is empty |
| Percentile.PercentileInRange | internal/metrics/handler.go:364-430 | with no negative bound and q at least zero it lies between zero and the last finite bound |
| Percentile.WithinBoundsIff | internal/metrics/handler.go:402-429 | it lies there for every such q exactly when no bound is negative, or there are no samples and the last bound is not negative |
| Percentile.MergeCountsAll | internal/metrics/handler.go:377-386 | merging the histograms of all label sets counts all their observations at once |
| Percentile.EstimateBracketsQuantile | internal/metrics/handler.go:364-430 | the estimate and the true quantile of the merged observations lie in the same bucket |
| Teams.CheckLastTeamAdmin | internal/api/users_handler.go:27-73 | the loops return the first team the change would leave without another admin, or the empty string |
| Teams.Directory.CreateUser | internal/api/users_handler.go:76-105 | a missing email or password or an unknown role is refused, a failed insert changes nothing, and else the user is appended with the given teams and a default role |
| Teams.Directory.UpdateUser | internal/api/users_handler.go:125-179 | the reply and the users afterwards are those of one update request |
| Teams.Directory.DeleteUser | internal/api/users_handler.go:279-317 | the reply and the users afterwards are those of one delete request |
| Teams.Directory.AddTeamMember | internal/api/teams_handler.go:159-225 | the reply and the users afterwards are those of one add request |
| Teams.Directory.RemoveTeamMember | internal/api/teams_handler.go:228-306 | the reply and the users afterwards are those of one remove request |
| Teams.CreateUserAnswers | internal/api/users_handler.go:76-105 | email, password and a known role or none are required; the stored user has the given teams, and is a member by default; 422 and 500 otherwise, with nothing stored |
| Teams.UpdateUserAnswers | internal/api/users_handler.go:125-179 | when each of 400, 422, 404 and 409 is answered, 409 only if a team would lose its last admin; an accepted update changes what was given of that user and nobody else |
| Teams.DeleteUserAnswers | internal/api/users_handler.go:279-317 | when each of 400, 404 and 409 is answered, 409 only if a team would lose its last admin; an accepted delete takes away exactly that user |
| Teams.ManagersOnly | internal/api/teams_handler.go:159-247 | a caller who is neither an org admin nor an admin of the team is answered 403 and changes nothing; nobody else is |
| Teams.AddMemberAnswers | internal/api/teams_handler.go:159-225 | for a manager, when each of 422, 404 and 409 is answered; an accepted request adds the one entry, member by default, and changes nothing else |
| Teams.RemoveMemberAnswers | internal/api/teams_handler.go:228-306 | for a manager, when each of 404 and 409 is answered; an accepted removal takes away all entries for the team and nothing else |
| Teams.PassedCheckOrphansIff | internal/api/users_handler.go:27-73 | a change that passes the check orphans a team exactly when the user is the only admin of the team with the empty name and drops it |
| Teams.UnnamedTeamHidesOrphan | internal/api/users_handler.go:27-73 | a concrete passed change that takes the last admin from a named team |
| Teams.RemovalOrphansIff | internal/api/teams_handler.go:250-285 | a removal that the count test lets through orphans a team exactly when the user is its only admin and has two admin entries for it, or an entry with another role first |
| Teams.RemovalMatchesCheck | internal/api/teams_handler.go:250-285 | taking a named team off a user orphans a team exactly when checkLastTeamAdmin refuses the shortened list |
| Teams.ChecksAgree | internal/api/teams_handler.go:265-285 | with duplicate-free lists the count test refuses exactly when checkLastTeamAdmin does on the reduced list |
| Teams.DuplicateEntriesOrphan | internal/api/teams_handler.go:265-293 | with a duplicate entry the count test lets the last admin go |
| Teams.StepKeepsClean | internal/api/teams_handler.go:202-216 | requests with duplicate-free lists keep every list duplicate-free |
| Teams.AdministeredTeamsStay | internal/api/users_handler.go:125-179 | over every run of such requests a team that has an admin keeps having one |
| Template.MatchHeadExact | internal/registry/template.go:8-9 | the matcher finds a placeholder at the head exactly when the text starts with one of 1 to 64 name characters in braces |
| Template.PlaceholdersAre | internal/registry/template.go:8-9 | a name in braces is a placeholder exactly when it is one to sixty-four ASCII letters, digits, underscores and hyphens |
| Template.ParseIsLeftmost | internal/registry/template.go:13-29 | the scan splits the template into literals and placeholders, leftmost and without overlap, and loses no text |
| Template.LeftmostParseUnique | internal/registry/template.go:13-29 | there is only one such split |
| Template.ExtractTemplateVars | internal/registry/template.go:32-44 | the loop returns the distinct names in order of first occurrence |
| Template.VarsFacts | internal/registry/template.go:32-44 | extracted names have no duplicates, are exactly the names in the template, and stand in order of first occurrence |
| Template.ResolveTemplate | internal/registry/template.go:13-29 | the result is the literals and the values of the split in order, or the last undefined name |
| Template.ResolvesIffDefined | internal/registry/template.go:13-29 | resolution succeeds exactly when every extracted name is defined |
| Template.DependsOnVarsOnly | internal/registry/template.go:13-44 | the result depends on the extracted names only |
| Template.SelfSubstitution | internal/registry/template.go:13-29 | mapping each name to its own placeholder gives the template back |
| Template.StableIff | internal/registry/template.go:13-29 | a text is returned unchanged by every resolution exactly when it has no placeholder |
| Template.ResultIsStable | internal/registry/template.go:13-29 | when no literal of the template and no value of an extracted name holds an opening brace, the result has no placeholder and every further resolution returns it unchanged |
| Template.OnePassOnly | internal/registry/template.go:13-29 | a leftover opening brace breaks that: a placeholder in braces of its own, its value a name, resolves to a placeholder that a second resolution does not find defined |
| Registry.Service.Create | internal/registry/service.go:45-62 | a create is accepted exactly when the texts are not blank, mode and way to authenticate are known or absent, and the endpoint (in api mode resolved) is a URL; the stored row is the input with its defaults; an error names something wrong with the input, and nothing is stored |
| Registry.Service.Update | internal/registry/service.go:75-105 | an update is accepted exactly when what it gives is well formed and, if it touches the endpoint of an api tool, the patched row resolves to a URL; it stores the patched tool, and otherwise changes nothing |
| Registry.Service.Delete | internal/registry/service.go:108-110 | a delete removes one tool, or reports that there is none |
| Registry.StoredTemplatesResolve | internal/registry/service.go:45-105 | over every run of creates, partial updates and deletes, each call one atomic step, every stored api tool resolves to a valid endpoint |
| RegistryRaces.WriteKeepsGoodIff | internal/registry/service.go:83-104 | a validated update leaves a good row exactly when it is acceptable against the row it is written over |
| RegistryRaces.InterleavedUpdatesIff | internal/registry/service.go:75-105 | with validation and write as separate steps, every stored api tool resolves at all times of a run exactly when every update is still acceptable at the moment it is written |
| RegistryRaces.UntouchedRunIsSafe | internal/registry/service.go:75-105 | a run in which no row changes mode, endpoint or variables while an update of it is validated and not yet written is one in which every update is still acceptable at its write |
| RegistryRaces.RacedUpdates | internal/registry/service.go:83-104 | two updates accepted against one row, a rename of the variable and a new value of the old one, together leave an endpoint that does not resolve |
| RegistryRaces.RacedRun | internal/registry/service.go:83-104 | the same as a run in which both are validated before either is written |
| Registry.CreateChecksServiceEndpoint | internal/registry/service.go:128-136 | a created service tool has a valid endpoint |
| Registry.ServiceEndpointKeptIff | internal/registry/service.go:75-105 | an accepted update keeps a service tool's endpoint valid unless it sets mode "service" over an invalid endpoint, and only then does it not |
| Registry.UncheckedServiceEndpoint | internal/registry/service.go:156-161 | an accepted update that leaves a service tool with a blank endpoint |

## Left out

- Protocol.BufferBound: does not model the shutdown order; a Record after the last flush leaves its transaction in the buffer, as in the code.
- Overshoot.OvershootBound: assumes costs between zero and a cap that are multiples of 10^-6, a clock that does not step back, and inserts that either happen or fail; an insert reported as failed that still took effect counts as lost. The cost column keeps six decimals, so a cost under half of 10^-6 is stored as zero and never counts towards a limit.
- Slack.BoundIsSharp: its runs end with batches still being stored; batches above 5041 transactions, which no statement can hold, would be lost afterwards.
- AgentSlack.AgentBoundIsSharp: says nothing of configurations whose largest batch is above 5041 transactions.
- Protocol.BatchesAreConserved: a request may start its checks at any time after its agent or tool was deleted, because it may have been looked up before; how long it may wait is not modelled.
- SweepRaces.RacedIntervalBound: an attempt is one step; one that found its entry before the sweep deleted it, and counts on it afterwards, is not modelled.
- Proxy.ServeHTTP: does not model headers, bodies, URL joining and credentials; the answers of the rate limiter and the upstream are inputs, and those of the budget checks too except in Proxy.ServeWithBudgets.
- Proxy.ChargedCost: does not model infinite header values, because costs are real numbers.
- Metering.BatchInsert: does not model what the columns do to values: instants are cut to microseconds, costs rounded to six decimals and refused from 10^6 on; nor the ids the database generates.
- Proxy.SourceSurvivesStorage: the same; the other fields are read back as they were only for instants in whole microseconds and costs in multiples of 10^-6.
- Metering.ListTransactions: does not render the SQL text; a statement is its conditions, arguments and limit. A cursor whose id is no UUID, which the database refuses, is not modelled.
- StoreListings.ListTools: takes pattern matching as a parameter, so nothing is said about wildcards in the query.
- Cursor.CursorRoundTrip: takes the written form of a timestamp as an injective codec without bars, because calendar text is a library's.
- TokenBucket.TokensAreLeastLevel: exact integers stand for floating-point tokens, because rounding is not the point.
- Percentile.EstimateBracketsQuantile: exact reals and naturals stand for floating-point numbers and 64-bit counts; a total beyond 2^64 is not modelled.
- Percentile.ListBuckets: sorts by insertion, because the sort itself is a library's.
- LoginLimiter.LoginRateLimiter.Cleanup: a sweep is one atomic step here; SweepRaces takes its test and its delete apart.
- Teams.AdministeredTeamsStay: each handler is one atomic step; races between a handler's read and its write are not modelled.
- Teams.Directory.CreateUser: takes it as an input whether the insert succeeds, and so whether the email is taken.
- Updates.CompileToolUpdate: takes the encrypted auth_config and the encoded variables as the maps they stand for, and columns by name only.
- Registry.StoredTemplatesResolve: takes URL parsing as a parameter, and each service call as one atomic step; interleaved updates are in RegistryRaces.
- RegistryRaces.InterleavedUpdatesIff: a failed write of a validated update is not modelled; it changes nothing.
- The collector's `Start` loop and `Stop` are the ticker thread of the protocol, without their timer.
- `GetSummary`, `GetToolCallCounts`, `ListByAgent` and the other plain queries: they would only add easy members.
- The rate store that resolves tool, team and agent rates; its result is an input.
- Authentication, encryption, configuration, migrations, metrics registration, audit logging, the HTTP router and the embedded UI.
