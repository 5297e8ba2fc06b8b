# Verified models of the trading ecosystem

These Dafny modules model the components of the repository that hold real state
machines, concurrent protocols or arithmetic, and prove what those components are
for. One module stands for one component:

| module | component |
|---|---|
| DbWriter | the batching database writer: producers, flush timer, workers and Close as interleaved atomic steps over one buffer and one bounded channel |
| TokenBucket | the rate limiters in memory (Python and Go) and as a Redis script |
| Aggregator | ticks into OHLCV bars on nested timeframes |
| KillSwitch | the shared trading stop, read by many processes through caches |
| Audit | the hash chain, its delimited payload and the bounded write buffer |
| Bayesian | online changepoint detection and Normal-Inverse-Gamma estimation |
| FractionalDifference | truncated fractional differencing |
| MovingAverages | EMA, MACD, DEMA and RSI |
| Adx | directional movement, Wilder sums and ADX |
| ParabolicSar | the parabolic stop-and-reverse |
| Roots | Newton's square root and the logarithm series |
| Regime | the market-regime classifier and its confirmation rule |
| OrderManager | validation, duplicate guard, lot clamp and position limit |
| Simulator | fills, exits and the account of a backtest |
| Drawdown | the one-pass maximum drawdown |
| PositionTracker | known and closed tickets, trailing stops |
| Reals, RealSeq, Sequences | shared arithmetic and sequence facts |

Each component that updates state is a class whose methods are proved equal to a
specification step; the laws are proved about runs of those steps. `Decimal` and
`float` are reals. Rounding is modelled where the code rounds on purpose (cents,
price ticks, percentages, whole Redis tokens, truncated lots). Clocks, broker,
Redis and PostgreSQL are inputs that may succeed, fail or raise at every call.

`dafny verify dfyconfig.toml` checks the whole project.

## Where code and promise differ

* Close says it flushes everything pending. A batch in the channel, or on its way
  there, can be left behind when the workers stop (DbWriter.NothingStrandedIff), and
  an insert under way is cancelled (DbWriter.EverythingWrittenIff).
* Every call of the Redis script drops the fraction of a token it refilled, so
  frequent polling can starve a client for ever (TokenBucket.StarvedIff), and so can
  obeying the advertised wait, which Redis truncates (ObedientClientStarvesIff).
* `allowed` as the Python client derives it is wrong for rates above one per
  second (TokenBucket.PythonAgreesIff).
* connect of the kill switch assumes "inactive" without reading the register
  (KillSwitch.ConnectOpensForTtl), and failing reads keep an open switch open through
  a blocked register (KillSwitch.FailedReadsFreeze).
* The entity fields of an audit entry are outside its hash (Audit.EntityUnprotected).
* A window of n bars that opens while a label waits for confirmation can hold more
  than n / N regime changes (Regime.WindowBoundIff).
* The Reversal regime cannot be reached with the default of three bars unless the two
  averages coincide (Regime.ReversalNeverConfirmed).
* The parabolic stop lies inside the bar that turned the trend when that bar also
  made a new extreme, and then loosens (ParabolicSar.StopsNeverLoosenIff).
* The position limit does not see pending limit orders, and a failed lookup reads
  as no positions; what would be safe is a bound on open and pending orders together
  (OrderManager.RunSafeIff, LimitOrdersSlipThrough, MisreportSlipsThrough).
* MACD is wrong for a fast period above the slow one (MovingAverages.MacdLineIff).
* A threshold of zero or below makes every fractional difference empty, and one above
  1 cuts whole orders short (FractionalDifference.WholeOrderIff).
* A direction such as "buy" is traded as a purchase but filled as a sale
  (Simulator.FlatRoundTrip).
* Drawdown is exact if and only if the curve never falls below zero from a positive
  value, or its deepest such fall comes before any second positive level; otherwise
  it is understated (Drawdown.MissesNothingIff).
* The default trailing distance lets a moved stop lie below the entry
  (PositionTracker.BreakEvenIff).

## Model

| member | source | states |
|---|---|---|
| DbWriter.Conservation | program/services/data-ingestion/internal/dbwriter/writer.go:211-465 | In every reachable interleaving of producers, timer, workers and Close, the batches handed out are the accepted records cut in order, each batch is in exactly one place, and the accepted records are, as a multiset, buffer + channel + batches held by a goroutine + batch Close is writing + persisted + failed |
| DbWriter.IdlePersistedAll | program/services/data-ingestion/internal/dbwriter/writer.go:211-412 | An idle writer before Close with no insert errors has persisted every record exactly as often as it was accepted |
| DbWriter.SuccessfulInsertsPersist | program/services/data-ingestion/internal/dbwriter/writer.go:211-465 | Along every run whose inserts all succeed an idle open writer has persisted every record exactly as often as it was accepted; along every run whose inserts all fail nothing is persisted |
| DbWriter.AfterClose | program/services/data-ingestion/internal/dbwriter/writer.go:422-465 | After Close with no later writes, the records neither persisted nor failed are exactly those of the batches still in the channel; everything is in the database if and only if nothing is queued and no insert failed |
| DbWriter.NothingStrandedIff | program/services/data-ingestion/internal/dbwriter/writer.go:422-465 | Called in any reachable state with no later writes, Close leaves nothing in the channel in every run if and only if nothing was in the channel, in the buffer or being offered at the call, a writer without workers excepted |
| DbWriter.EverythingWrittenIff | program/services/data-ingestion/internal/dbwriter/writer.go:430-452 | Even if the database takes every insert that Close does not cancel, everything accepted is written in every run if and only if nothing at all was pending at the call and no insert had failed before |
| DbWriter.UndividedCloseWritesAll | program/services/data-ingestion/internal/dbwriter/writer.go:436-449 | With only the buffer pending and nobody flushing beside it, Close writes everything |
| DbWriter.WorstClose | program/services/data-ingestion/internal/dbwriter/writer.go:430-452 | From any open state, a run of Close that strands in the channel, or cancels, whatever is pending |
| DbWriter.Stranded | program/services/data-ingestion/internal/dbwriter/writer.go:216-218 | What is in the channel when Close returns stays there in every continuation |
| DbWriter.RunInv | program/services/data-ingestion/internal/dbwriter/writer.go:211-465 | Every run of atomic steps keeps the control invariant (worker, timer and Close phases) and the record ledger |
| DbWriter.StepPlaces | program/services/data-ingestion/internal/dbwriter/writer.go:211-465 | One step moves a batch between places and creates no batch except by taking records out of the buffer |
| DbWriter.StepLog | program/services/data-ingestion/internal/dbwriter/buffer.go:36-64 | One step appends what it accepts to the log and cuts batches off its end in order |
| DbWriter.WriteHandsOutFullBatches | program/services/data-ingestion/internal/dbwriter/buffer.go:36-50 | A write hands out the buffer exactly when it reaches capacity, as one batch of that size |
| DbWriter.RecordBuffer.Add | program/services/data-ingestion/internal/dbwriter/buffer.go:36-50 | Add hands out everything held once capacity is reached, and otherwise only keeps the record; what it hands out has the size of the capacity |
| DbWriter.RecordBuffer.Flush | program/services/data-ingestion/internal/dbwriter/buffer.go:53-64 | Flush empties the buffer and hands out its content in order |
| DbWriter.Writer.Submit | program/services/data-ingestion/internal/dbwriter/writer.go:329-339 | The select with a default branch is a run of the event machine: into the channel if there is room, else an insert of its own, whose batch is written or given up as the insert succeeds or fails |
| DbWriter.Writer.WriteRecord | program/services/data-ingestion/internal/dbwriter/writer.go:296-340 | A write is a run of the event machine that starts with accepting the record |
| DbWriter.Writer.FlushRecords | program/services/data-ingestion/internal/dbwriter/writer.go:379-394 | A forced or timed flush is a run of the event machine |
| DbWriter.Writer.WorkerTurn | program/services/data-ingestion/internal/dbwriter/writer.go:211-240 | A worker's turn is a run of the event machine: it takes the oldest batch from the channel, which is written or given up as the insert succeeds or fails |
| DbWriter.Writer.Close | program/services/data-ingestion/internal/dbwriter/writer.go:423-449 | Close up to its wait is a run of the event machine that leaves the buffer empty, its content written or given up as the final insert succeeds or fails, and the channel as it was |
| TokenBucket.AdmissionBound | program/shared/go-common/ratelimit/ratelimit.go:382-430 | Between any two checks of any run the bucket admits at most max_tokens + refill_rate * elapsed requests |
| TokenBucket.Budget | program/shared/python-common/src/moneymaker_common/ratelimit.py:327-348 | Admissions are paid for: tokens admitted plus tokens left never exceed what was at hand plus the refill |
| TokenBucket.RetryExact | program/shared/go-common/ratelimit/ratelimit.go:408-420 | After a rejection every check before the advertised wait fails and the first one at or after it succeeds |
| TokenBucket.RemainingIsAdmissible | program/shared/go-common/ratelimit/ratelimit.go:408-429 | The number of remaining tokens in an answer is how many further checks at the same instant will be admitted, after an admission and after a refusal |
| TokenBucket.CleanupInvisibleIff | program/shared/go-common/ratelimit/ratelimit.go:452-462 | Cleanup changes no answer of any run if and only if maxAge * refill_rate >= max_tokens |
| TokenBucket.CleanupInvisible | program/shared/go-common/ratelimit/ratelimit.go:452-462 | With such a maxAge, answers with and without clean-ups agree from any ready state |
| TokenBucket.CleanupShows | program/shared/go-common/ratelimit/ratelimit.go:452-462 | With a shorter maxAge, a run on which Cleanup shows |
| TokenBucket.ScriptReady | program/shared/python-common/src/moneymaker_common/ratelimit.py:115-151 | The script keeps its hash between 0 and max_tokens and stamps every call; the unstored tokens of the refusing branch are zero |
| TokenBucket.ScriptRemainingIsAdmissible | program/shared/python-common/src/moneymaker_common/ratelimit.py:135-149 | The same for the tokens in the script's reply |
| TokenBucket.SimulatedRun | program/shared/python-common/src/moneymaker_common/ratelimit.py:115-151 | On shared times the script's tokens never exceed the memory bucket's, so what it admits the memory limiter admits |
| TokenBucket.SimulationIff | program/shared/python-common/src/moneymaker_common/ratelimit.py:115-151 | That holds for every run with key expiry if and only if burst_size <= requests_per_window |
| TokenBucket.ForgettingDefeatsSimulation | program/shared/python-common/src/moneymaker_common/ratelimit.py:142-148 | With a larger burst, a run where an expired key lets the script admit what memory refuses |
| TokenBucket.ExpiryInvisibleIff | program/shared/python-common/src/moneymaker_common/ratelimit.py:142-148 | Forgetting a key after two windows never changes the script's step if and only if burst_size <= requests_per_window |
| TokenBucket.ExpiryInvisibleInRuns | program/shared/python-common/src/moneymaker_common/ratelimit.py:142-148 | Then every run with expiry replies as the run without |
| TokenBucket.StarvedIff | program/shared/python-common/src/moneymaker_common/ratelimit.py:133-148 | The converse simulation fails: a drained script bucket refuses every call of a run if and only if every gap refills less than one token |
| TokenBucket.RefusalAdvertises | program/shared/python-common/src/moneymaker_common/ratelimit.py:145-149 | Every refusal advertises, in whole seconds, the window divided by the requests, rounded down |
| TokenBucket.ObedientClientStarvesIff | program/shared/python-common/src/moneymaker_common/ratelimit.py:145-149 | A client that waits exactly that long after each refusal is refused for ever if and only if the window is not a whole number of token periods |
| TokenBucket.PythonAgreesIff | program/shared/python-common/src/moneymaker_common/ratelimit.py:223-225 | `retry_after == 0` on the truncated reply agrees with the branch taken in every state if and only if requests_per_window <= window_seconds |
| TokenBucket.InMemoryRateLimiter.Check | program/shared/python-common/src/moneymaker_common/ratelimit.py:315-367 | The method updates one key as the specification step does and no other |
| TokenBucket.MemoryLimiter.Check | program/shared/go-common/ratelimit/ratelimit.go:382-430 | The same for the Go limiter |
| TokenBucket.MemoryLimiter.Cleanup | program/shared/go-common/ratelimit/ratelimit.go:452-462 | Cleanup drops exactly the buckets older than maxAge |
| TokenBucket.RedisBuckets.Eval | program/shared/python-common/src/moneymaker_common/ratelimit.py:115-151 | The script as a method on the stored hashes, with expiry decided by Redis |
| Aggregator.FloorTimeUnique | program/services/data-ingestion/internal/aggregator/aggregator.go:85-88 | floorTime is the only multiple of the duration whose interval holds the time |
| Aggregator.FloorTimeNested | program/services/data-ingestion/internal/aggregator/aggregator.go:85-88 | Flooring to a fine boundary first does not change the coarse boundary |
| Aggregator.TimeframesNest | program/services/data-ingestion/internal/aggregator/aggregator.go:34-51 | Of any two timeframes the longer is a whole number of the shorter |
| Aggregator.DurationsFixed | program/services/data-ingestion/internal/aggregator/aggregator.go:34-51 | A day is 86,400 seconds, six of H4, which is four of H1, which is four of M15, which is three of M5, which is five of M1; any other name is a minute |
| Aggregator.CoarseFromFine | program/services/data-ingestion/internal/aggregator/aggregator.go:118-172 | For ticks in any order, aggregating the fine bars coarsely gives the coarse bars |
| Aggregator.CoarseBarsMergeFineBars | program/services/data-ingestion/internal/aggregator/aggregator.go:118-172 | Coarse bars are the summaries (first open, max high, min low, last close, summed volume and count) of the fine bars grouped by floored open time |
| Aggregator.LaneIsGrouping | program/services/data-ingestion/internal/aggregator/aggregator.go:118-172 | For time-ordered ticks the bars are one summary per occupied interval, in order |
| Aggregator.OpenTimesIncrease | program/services/data-ingestion/internal/aggregator/aggregator.go:129-160 | Emitted open times strictly increase, whatever the tick order |
| Aggregator.LaneConserves | program/services/data-ingestion/internal/aggregator/aggregator.go:146-171 | Emitted plus pending bars hold every tick and all volume once, whatever the order |
| Aggregator.KeyInjective | program/services/data-ingestion/internal/aggregator/aggregator.go:111-113 | The joined key names one symbol and one timeframe, even for symbols with a colon |
| Aggregator.FeedIsLanes | program/services/data-ingestion/internal/aggregator/aggregator.go:118-172 | Over any stream of symbols the shared map is one independent lane for each symbol and configured timeframe |
| Aggregator.FeedTimed | program/services/data-ingestion/internal/aggregator/aggregator.go:122-160 | Over any stream every bar, pending or delivered, closes on a boundary of its timeframe and opened at the start of the interval that ends there |
| Aggregator.BarsDoNotOverlap | program/services/data-ingestion/internal/aggregator/aggregator.go:122-160 | Over any stream each bar of a symbol and timeframe opens no earlier than the one before it closes |
| Aggregator.FlushedBars | program/services/data-ingestion/internal/aggregator/aggregator.go:118-213 | After a stream and FlushAll each lane has been delivered completely and, for ordered ticks, is the grouping |
| Aggregator.TimeframesAgree | program/services/data-ingestion/internal/aggregator/aggregator.go:118-213 | After any stream, coarse bars summarise fine bars and both account for every tick and all volume |
| Aggregator.Aggregator.AddTick | program/services/data-ingestion/internal/aggregator/aggregator.go:118-181 | The loop over timeframes performs the specification step and delivers completed bars in order |
| Aggregator.Aggregator.FlushAll | program/services/data-ingestion/internal/aggregator/aggregator.go:185-213 | Every pending bar is delivered once and the map is left empty |
| KillSwitch.Propagation | program/services/algo-engine/src/algo_engine/kill_switch.py:83-199 | Across any processes, once the register has blocked for a TTL every answer that may read it is active, unless that process connected, failed a delete or failed a read within the last TTL |
| KillSwitch.ReleasePropagates | program/services/algo-engine/src/algo_engine/kill_switch.py:110-199 | The dual: once the register has been open for a TTL every answer that may read it is inactive, unless that process activated without reaching the register or failed a read within the last TTL |
| KillSwitch.OwnWordHolds | program/services/algo-engine/src/algo_engine/kill_switch.py:110-170 | After its own activation a process answers active with the reason given, after its own deactivation inactive without one, whether or not Redis took it, for a TTL and, if it is disconnected, for ever |
| KillSwitch.ReasonIsHeard | program/services/algo-engine/src/algo_engine/kill_switch.py:178-184 | A stale cache that reads an active register repeats its reason |
| KillSwitch.OpenCacheIsOld | program/services/algo-engine/src/algo_engine/kill_switch.py:172-199 | While the register blocks, an open cache dates from before or from one of those excuses |
| KillSwitch.StaleForTtl | program/services/algo-engine/src/algo_engine/kill_switch.py:174-176 | The TTL is tight: a process that read just before the activation still answers inactive until it has passed |
| KillSwitch.ConnectOpensForTtl | program/services/algo-engine/src/algo_engine/kill_switch.py:95-97 | connect opens the switch without reading the register, for exactly one TTL |
| KillSwitch.DisconnectedFrozen | program/services/algo-engine/src/algo_engine/kill_switch.py:198-199 | A disconnected process repeats its cached answer whatever the others and the register do |
| KillSwitch.FailClosed | program/services/algo-engine/src/algo_engine/kill_switch.py:77-108 | A process none of whose connects succeeded answers active until it deactivates |
| KillSwitch.LostRedisIff | program/services/algo-engine/src/algo_engine/kill_switch.py:103-108 | After a failed reconnect the answer is active for ever if and only if the cache was active then |
| KillSwitch.FailedReadsFreeze | program/services/algo-engine/src/algo_engine/kill_switch.py:188-199 | A connected process whose reads all fail repeats its cached answer, open or not, whatever the register says |
| KillSwitch.Switch.Connect | program/services/algo-engine/src/algo_engine/kill_switch.py:83-108 | Fields after connect, by success |
| KillSwitch.Switch.Activate | program/services/algo-engine/src/algo_engine/kill_switch.py:110-148 | Fields and register after activate, by success of the write |
| KillSwitch.Switch.Deactivate | program/services/algo-engine/src/algo_engine/kill_switch.py:150-170 | Fields and register after deactivate, by success of the delete |
| KillSwitch.Switch.IsActive | program/services/algo-engine/src/algo_engine/kill_switch.py:172-199 | Answer and cache by age, connection, and how the read ends, corrupt data included |
| KillSwitch.Switch.AutoCheck | program/services/algo-engine/src/algo_engine/kill_switch.py:207-242 | A breached limit blocks here at once and, if Redis takes it, the register; otherwise nothing changes |
| Audit.PayloadDecodes | program/shared/python-common/src/moneymaker_common/audit.py:48-51 | The joined payload determines all five fields, whatever bars the details contain |
| Audit.BarIsAmbiguous | program/shared/python-common/src/moneymaker_common/audit.py:50 | With a bar in service or action another entry always has the same payload |
| Audit.ChainGrows | program/shared/python-common/src/moneymaker_common/audit.py:65-97 | log extends a chain to a chain |
| Audit.LastHashDeterminesChain | program/shared/python-common/src/moneymaker_common/audit.py:40-97 | Two chains with one last hash agree in length and in every hashed field, or the two chains exhibit a collision between two of their own payloads, or one of these hashes to GENESIS |
| Audit.EntityUnprotected | program/shared/python-common/src/moneymaker_common/audit.py:76-93 | The entity of any entry can be rewritten without breaking the chain or its last hash |
| Audit.RunInv | program/shared/python-common/src/moneymaker_common/audit_pg.py:96-164 | Over any log, log_async and sequential flush with any write failures every entry is written, buffered or counted as dropped, and the bounded buffer keeps the logging order |
| Audit.FlushByOutcome | program/shared/python-common/src/moneymaker_common/audit_pg.py:152-164 | A flush whose writes all succeed moves the buffer into the database in order, one whose writes all fail changes nothing, and the rows added are as many as the successes |
| Audit.LoggedNowByOutcome | program/shared/python-common/src/moneymaker_common/audit_pg.py:130-141 | After a successful write the entry is a row and no longer waits, after a failed one it waits behind the others; a full buffer gives up only its oldest entry |
| Audit.NothingWrittenBufferIsSuffix | program/shared/python-common/src/moneymaker_common/audit_pg.py:96-164 | While every write fails the database stays empty and the buffer is the last entries logged, as many as it holds |
| Audit.TrailsAgree | program/shared/python-common/src/moneymaker_common/audit_pg.py:96-164 | Two trails that end in one hash logged the same, whatever was flushed, lost or dropped, unless what they logged exhibits such a collision |
| Audit.PostgresAuditTrail.Log | program/shared/python-common/src/moneymaker_common/audit.py:65-97 | log appends the next chain entry and buffers it |
| Audit.PostgresAuditTrail.Persist | program/shared/python-common/src/moneymaker_common/audit_pg.py:96-107 | A full buffer drops its oldest entry and counts it |
| Audit.PostgresAuditTrail.LogAsync | program/shared/python-common/src/moneymaker_common/audit_pg.py:109-141 | The entry leaves the buffer exactly when its write succeeded |
| Audit.PostgresAuditTrail.Flush | program/shared/python-common/src/moneymaker_common/audit_pg.py:143-164 | What failed stays, in order, what succeeded is in the database; the count returned is that of the successes |
| Bayesian.WelfordCorrect | program/services/algo-engine/src/algo_engine/math/bayesian.py:143-150 | One step takes the count, mean and sum of squared deviations of a sample to those of the longer sample |
| Bayesian.StatsAreSuffixes | program/services/algo-engine/src/algo_engine/math/bayesian.py:139-152 | After any observations entry i holds the statistics of exactly the last i of them |
| Bayesian.PredictsFromRun | program/services/algo-engine/src/algo_engine/math/bayesian.py:108-119 | A run length predicts with the density at the mean and variance of exactly the observations of that run, with a floor under a variance of zero, and with 0.1 before its second observation |
| Bayesian.WeightsPositive | program/services/algo-engine/src/algo_engine/math/bayesian.py:108-129 | The normaliser is positive even if the density underflows to zero |
| Bayesian.ProbsAreDistribution | program/services/algo-engine/src/algo_engine/math/bayesian.py:121-137 | Run-length probabilities are nonnegative and sum to one, and the probability of a changepoint is the hazard rate whatever the data |
| Bayesian.MassesAreDistribution | program/services/algo-engine/src/algo_engine/math/bayesian.py:173-186 | Binned regime masses sum to one, so normalising them changes nothing |
| Bayesian.BinsAreStretches | program/services/algo-engine/src/algo_engine/math/bayesian.py:173-179 | The bins are consecutive stretches of run lengths of equal size, the last one taking the rest |
| Bayesian.BayesianRegimeDetector.Update | program/services/algo-engine/src/algo_engine/math/bayesian.py:95-157 | update keeps the detector the function of all observations and leaves a distribution over regimes |
| Bayesian.BayesianRegimeDetector.RunLengthToRegimes | program/services/algo-engine/src/algo_engine/math/bayesian.py:159-186 | Each posterior is the probability of the run lengths in its bin |
| Bayesian.NigClosedForm | program/services/algo-engine/src/algo_engine/math/bayesian.py:325-340 | The online updates equal the batch posterior of mean, alpha and beta |
| Bayesian.NigOrderFree | program/services/algo-engine/src/algo_engine/math/bayesian.py:325-340 | The estimate does not depend on the order of the observations |
| Bayesian.BayesianParameterEstimator.Update | program/services/algo-engine/src/algo_engine/math/bayesian.py:325-340 | The method performs the step on its fields |
| FractionalDifference.FractionallyDifference | program/services/algo-engine/src/algo_engine/math/fractal.py:132-205 | The method returns the truncated weighted sums, or the error for an empty series or a negative order |
| FractionalDifference.Weights | program/services/algo-engine/src/algo_engine/math/fractal.py:168-179 | The weight loop stops at the first weight below the threshold or past the series |
| FractionalDifference.WeightIsCoefficient | program/services/algo-engine/src/algo_engine/math/fractal.py:172 | For whole orders the weights are the signed binomial coefficients |
| FractionalDifference.WholeOrder | program/services/algo-engine/src/algo_engine/math/fractal.py:132-205 | For every natural order and threshold in (0, 1], any positive one for order zero, the result is the d-fold first difference, empty results included |
| FractionalDifference.WholeOrderIff | program/services/algo-engine/src/algo_engine/math/fractal.py:173-174 | For every order and threshold that holds of every series if and only if the threshold is positive and, except for order zero, at most 1 |
| FractionalDifference.NeverCut | program/services/algo-engine/src/algo_engine/math/fractal.py:173-179 | Without a positive threshold every result is empty |
| FractionalDifference.CutTooEarly | program/services/algo-engine/src/algo_engine/math/fractal.py:173-174 | A threshold above 1 gives a result of the wrong length |
| FractionalDifference.FractionalWeights | program/services/algo-engine/src/algo_engine/math/fractal.py:172 | For 0 < d < 1 later weights are negative with strictly decreasing magnitude and every partial sum is positive |
| MovingAverages.CalculateEma | program/services/algo-engine/src/algo_engine/features/technical.py:79-106 | The loop computes the exponential average |
| MovingAverages.EmaWithin | program/services/algo-engine/src/algo_engine/features/technical.py:79-106 | Every average lies between the least and the greatest input |
| MovingAverages.EmaLag | program/services/algo-engine/src/algo_engine/features/technical.py:79-106 | On a straight line the average lags by exactly (period - 1) / 2 steps |
| MovingAverages.CalculateMacd | program/services/algo-engine/src/algo_engine/features/technical.py:167-234 | The incremental line, signal and histogram, for any periods that are not negative; for 1 <= fast <= slow the line is the difference of the two averages |
| MovingAverages.MacdIsDifference | program/services/algo-engine/src/algo_engine/features/technical.py:201-224 | For 1 <= fast <= slow the line after any n closes, which is an element of the series, is the difference of the two exponential averages of those closes |
| MovingAverages.AverageIsEma | program/services/algo-engine/src/algo_engine/features/technical.py:201-224 | An average the loop carries is the exponential average when its period is positive and no longer than the slow one |
| MovingAverages.MacdLineIff | program/services/algo-engine/src/algo_engine/features/technical.py:189-224 | For positive periods every line reported is the difference of the two averages if and only if fast <= slow |
| MovingAverages.SwappedPeriodsDiffer | program/services/algo-engine/src/algo_engine/features/technical.py:206-218 | For every fast > slow the closes between the periods count twice: after an impulse the fast average is too high at every later close |
| MovingAverages.CalculateDema | program/services/algo-engine/src/algo_engine/features/technical.py:819-855 | Twice the average minus the average of the averages over time |
| MovingAverages.DemaFlat | program/services/algo-engine/src/algo_engine/features/technical.py:819-855 | On a flat market that is the price |
| MovingAverages.DemaHasNoLag | program/services/algo-engine/src/algo_engine/features/technical.py:819-855 | On a straight line the double average is the last value |
| MovingAverages.CalculateRsi | program/services/algo-engine/src/algo_engine/features/technical.py:110-163 | The loop computes the index, a percentage |
| MovingAverages.RsiWithin | program/services/algo-engine/src/algo_engine/features/technical.py:155-163 | For any closes and period the index lies in [0, 100] |
| MovingAverages.RsiIsShare | program/services/algo-engine/src/algo_engine/features/technical.py:125-163 | The index is the average gain's share of average gain and loss, in percent; the two averages differ by the average change; without losses it is one hundred |
| MovingAverages.WilderMoves | program/services/algo-engine/src/algo_engine/features/technical.py:142-152 | A Wilder step moves the average by one period-th of the way to the new value |
| MovingAverages.CalculateRsiSeries | program/services/algo-engine/src/algo_engine/features/technical.py:757-812 | The series loop appends one value per change from the period on |
| MovingAverages.SeriesElements | program/services/algo-engine/src/algo_engine/features/technical.py:757-812 | Each element is calculate_rsi of the closes so far, in [0, 100]; the last one is calculate_rsi of all |
| Adx.MovesFitRange | program/services/algo-engine/src/algo_engine/features/technical.py:377-391 | Movements and range are not negative, and both movements fit in the range when the previous close is inside its bar |
| Adx.TrueRangeIsSpan | program/services/algo-engine/src/algo_engine/features/technical.py:387-391 | The true range is the span of the bar together with the close before |
| Adx.MovesExclude | program/services/algo-engine/src/algo_engine/features/technical.py:377-383 | At most one of the two movements counts, the larger one, and neither on a tie or inside bar |
| Adx.MovesFitIff | program/services/algo-engine/src/algo_engine/features/technical.py:377-391 | For bars with low <= high the movements fit in the range if and only if the bar opens no gap, or the close before is on the near side of the gap or as far beyond as the bar moved |
| Adx.RunningBelow | program/services/algo-engine/src/algo_engine/features/technical.py:393-407 | A bound that holds bar by bar holds for the three running sums |
| Adx.RunningOfConstant | program/services/algo-engine/src/algo_engine/features/technical.py:393-407 | The running sum of a constant is the period times the constant |
| Adx.ImbalanceIsShare | program/services/algo-engine/src/algo_engine/features/technical.py:412-420 | The one-sidedness is the indicators' difference in percent of their sum: 0 when equal, 100 when one is zero |
| Adx.RisingMarketIsAllTrend | program/services/algo-engine/src/algo_engine/features/technical.py:341-433 | A market whose bars all rise has ADX 100, +DI positive and -DI zero |
| Adx.AdxIsPercentage | program/services/algo-engine/src/algo_engine/features/technical.py:341-433 | For any prices and period ADX lies in [0, 100]; with closes inside their bars, or movements that fit on every bar, +DI and -DI share one hundred percent |
| Adx.LastMoveDecides | program/services/algo-engine/src/algo_engine/features/technical.py:402-431 | With period 1 they share one hundred percent if and only if the last movements fit or the last bar has no range |
| Adx.CloseOutsideBreaksShare | program/services/algo-engine/src/algo_engine/features/technical.py:428-431 | The excess has no bound: with closes above their bars +DI is the rise over the range in percent, for any rise and range |
| Adx.CalculateAdx | program/services/algo-engine/src/algo_engine/features/technical.py:341-433 | The loops compute that index with those bounds |
| ParabolicSar.CalculateParabolicSar | program/services/algo-engine/src/algo_engine/features/technical.py:906-994 | The loop computes the specification's stop and trend, or zero and unknown for fewer than two bars |
| ParabolicSar.ExtremeOfTrend | program/services/algo-engine/src/algo_engine/features/technical.py:948-990 | The extreme point is the highest high, or lowest low, of the bars of the present trend |
| ParabolicSar.AccelerationCounts | program/services/algo-engine/src/algo_engine/features/technical.py:948-990 | The acceleration is its start plus one step for each new extreme of the present trend, up to the cap |
| ParabolicSar.StopsNeverLoosenIff | program/services/algo-engine/src/algo_engine/features/technical.py:955-990 | Within a trend the stop tightens or stays if and only if the bar before was no such turn |
| ParabolicSar.StopInRange | program/services/algo-engine/src/algo_engine/features/technical.py:948-990 | With accelerations up to one the stop stays in the range of the prices |
| ParabolicSar.StartMirrorsIff | program/services/algo-engine/src/algo_engine/features/technical.py:934-944 | The first trend is decided alike for the mirrored market if and only if the second bar either rises or falls |
| ParabolicSar.SarMirrors | program/services/algo-engine/src/algo_engine/features/technical.py:934-990 | Then the whole indicator mirrors |
| Roots.DecimalSqrt | program/services/algo-engine/src/algo_engine/features/technical.py:678-703 | Error below zero, zero at zero, and for v > 0 after N >= 1 steps a value whose square exceeds v by at most ((v-1)/2)^2 / 4^(N-1) and never falls below |
| Roots.StepContracts | program/services/algo-engine/src/algo_engine/features/technical.py:698-701 | A step from above the root stays above, goes down, quarters the excess and squares it over 4v |
| Roots.NewtonDescends | program/services/algo-engine/src/algo_engine/features/technical.py:698-701 | From the first step on the iterates only go down |
| Roots.ReduceCorrect | program/services/algo-engine/src/algo_engine/features/technical.py:725-735 | The range reduction loses nothing, ends in [1/2, 2] and shifts no further than needed |
| Roots.DecimalLn | program/services/algo-engine/src/algo_engine/features/technical.py:711-749 | Both reduction loops terminate and the series loop adds up the terms |
| Roots.LnReciprocal | program/services/algo-engine/src/algo_engine/features/technical.py:725-749 | Exactly, for any number of terms: the logarithm of a reciprocal is the negative |
| Roots.LnDouble | program/services/algo-engine/src/algo_engine/features/technical.py:725-749 | Doubling adds the constant exactly, outside [1/2, 1] |
| Roots.LnConverges | program/services/algo-engine/src/algo_engine/features/technical.py:737-746 | More terms change the result by less than 3/4 of 9^-m, for every argument |
| Roots.LnOfTwo | program/services/algo-engine/src/algo_engine/features/technical.py:725-754 | Constant and series agree: the logarithm of two that the series computes is within two millionths of the constant, for six or more terms |
| Roots.LnSign | program/services/algo-engine/src/algo_engine/features/technical.py:725-749 | The result is positive above one, negative below and zero at one |
| Regime.RegimeIsLastAgreed | program/services/algo-engine/src/algo_engine/features/regime.py:175-198 | For every sequence of raw labels the regime is the label of the most recent run of N equal labels: never fewer, always that many |
| Regime.RunRegime | program/services/algo-engine/src/algo_engine/features/regime.py:109-198 | The same over runs of bars, where raw labels depend on the current regime |
| Regime.RegimeIsSupported | program/services/algo-engine/src/algo_engine/features/regime.py:109-277 | A regime other than Ranging rests on N consecutive bars that all support it: averages in the trend's order and ADX above 23, range ratio above 1.5, or a falling ADX above 40 with extreme RSI |
| Regime.DecidedBarsWin | program/services/algo-engine/src/algo_engine/features/regime.py:109-277 | N consecutive bars beyond the outer thresholds of a label make it the regime, whatever went before |
| Regime.ReversalNeverConfirmed | program/services/algo-engine/src/algo_engine/features/regime.py:233-269 | With more than one bar needed and averages that never coincide the Reversal regime is never reached |
| Regime.ChangesFromStart | program/services/algo-engine/src/algo_engine/features/regime.py:175-198 | From the start n bars hold at most n / N changes |
| Regime.ChangesInWindow | program/services/algo-engine/src/algo_engine/features/regime.py:175-198 | A window opened mid-run holds at most (n + N - 1) / N |
| Regime.WindowBoundIff | program/services/algo-engine/src/algo_engine/features/regime.py:175-198 | The n / N bound holds of every window opened at a point if and only if no label is waiting for confirmation there |
| Regime.HistoryIsWindow | program/services/algo-engine/src/algo_engine/features/regime.py:131-138 | The history is the last positive ranges, up to the window |
| Regime.CalmStaysOut | program/services/algo-engine/src/algo_engine/features/regime.py:216-269 | While ADX <= 27 and ATR ratio <= 2 a run outside trends and high volatility stays outside |
| Regime.CalmStaysRanging | program/services/algo-engine/src/algo_engine/features/regime.py:216-269 | A fresh run under those bounds never leaves Ranging |
| Regime.FirmStaysTrending | program/services/algo-engine/src/algo_engine/features/regime.py:233-256 | A trend holds while ADX stays above 23 and the averages differ |
| Regime.ConfidenceWithin | program/services/algo-engine/src/algo_engine/features/regime.py:279-306 | Confidence lies in [0.5, 0.95] whenever ADX is not negative |
| Regime.ConfidenceScale | program/services/algo-engine/src/algo_engine/features/regime.py:222-272 | The confidence of a trend is 0.75 at ADX 25, gains a hundredth per point and stops at 0.9 from 40 on; the scales of the other labels likewise |
| Regime.RegimeClassifier.ApplyHysteresis | program/services/algo-engine/src/algo_engine/features/regime.py:175-198 | The method performs the confirmation step and returns the regime |
| Regime.RegimeClassifier.ClassifyRaw | program/services/algo-engine/src/algo_engine/features/regime.py:200-277 | The method returns the raw label and its confidence |
| Regime.RegimeClassifier.Classify | program/services/algo-engine/src/algo_engine/features/regime.py:109-173 | The method performs one bar of the specification |
| OrderManager.ClampIsBest | program/services/mt5-bridge/src/mt5_bridge/order_manager.py:273-295 | Clamped lots are the broker's minimum or the greatest multiple of the step that request and maximum allow |
| OrderManager.ClampExceedsIff | program/services/mt5-bridge/src/mt5_bridge/order_manager.py:273-295 | They exceed the maximum if and only if the broker's minimum does |
| OrderManager.ClampIdempotent | program/services/mt5-bridge/src/mt5_bridge/order_manager.py:273-295 | Clamping again changes nothing |
| OrderManager.ClampMonotone | program/services/mt5-bridge/src/mt5_bridge/order_manager.py:273-295 | Asking for more never yields less |
| OrderManager.NoObjectionIff | program/services/mt5-bridge/src/mt5_bridge/order_manager.py:159-271 | The ordered checks raise nothing if and only if every rule holds, stated as one conjunction with the account limits multiplied out |
| OrderManager.ReasonIsTrue | program/services/mt5-bridge/src/mt5_bridge/order_manager.py:159-271 | The reason of a rejection is a rule the signal breaks |
| OrderManager.SentIff | program/services/mt5-bridge/src/mt5_bridge/order_manager.py:93-157 | An order reaches the broker if and only if its id is not remembered, every rule holds and nothing is missing; its lots are at most the maximum or the broker's minimum |
| OrderManager.SentLotsAreBest | program/services/mt5-bridge/src/mt5_bridge/order_manager.py:107-111 | The lots sent are those requested up to the maximum, cut to the greatest multiple of the step, and no less than the broker's minimum |
| OrderManager.OutcomeTells | program/services/mt5-bridge/src/mt5_bridge/order_manager.py:121-157 | The status of an order sent tells the broker's reply and the order type; an id is registered exactly when it was new and every rule held |
| OrderManager.DuplicatesSpaced | program/services/mt5-bridge/src/mt5_bridge/order_manager.py:93-157 | In every run two submissions of one signal are more than the window apart, broker exceptions included |
| OrderManager.RefusedIff | program/services/mt5-bridge/src/mt5_bridge/order_manager.py:97-99 | A signal is refused as duplicate if and only if no clean-up since its latest submission found it past the window |
| OrderManager.PositionsBound | program/services/mt5-bridge/src/mt5_bridge/order_manager.py:214-220 | Open positions exceed the limit only by late fills and by orders sent on a report of too few positions |
| OrderManager.LimitKept | program/services/mt5-bridge/src/mt5_bridge/order_manager.py:214-220 | With market orders only and true reports the limit holds throughout |
| OrderManager.SafeWithoutCallsIff | program/services/mt5-bridge/src/mt5_bridge/order_manager.py:214-220 | Whatever happens without further calls keeps the open positions within the limit if and only if open and pending orders together are |
| OrderManager.RunSafeIff | program/services/mt5-bridge/src/mt5_bridge/order_manager.py:214-220 | A run keeps open and pending within the limit throughout if and only if it starts there and every order the broker accepts finds fewer than the limit of both together |
| OrderManager.LimitOrdersSlipThrough | program/services/mt5-bridge/src/mt5_bridge/order_manager.py:128-138 | Under every limit, one limit order more than it passes on true reports, and all of them may fill |
| OrderManager.MisreportSlipsThrough | program/services/mt5-bridge/src/mt5_bridge/order_manager.py:214-216 | Under every limit, reports of no positions let any number of market orders through |
| OrderManager.Manager.ClampLotSize | program/services/mt5-bridge/src/mt5_bridge/order_manager.py:273-295 | The method computes the clamp |
| OrderManager.Manager.ValidateSignal | program/services/mt5-bridge/src/mt5_bridge/order_manager.py:159-271 | The method returns the first objection in the order of the checks |
| OrderManager.Manager.CleanupOldSignals | program/services/mt5-bridge/src/mt5_bridge/order_manager.py:421-428 | Exactly the entries past the window are deleted |
| OrderManager.Manager.ExecuteSignal | program/services/mt5-bridge/src/mt5_bridge/order_manager.py:93-157 | The method performs the specification step on table, outcome and lots sent |
| Reals.HalfEvenIff | program/services/algo-engine/src/algo_engine/backtesting/simulator.py:131-133 | Rounding is to a nearest number with ties to even, and this determines it |
| Simulator.PnlMirrors | program/services/algo-engine/src/algo_engine/backtesting/simulator.py:259-281 | A short position earns to the cent what the long one loses |
| Simulator.PipIsWorthTen | program/services/algo-engine/src/algo_engine/backtesting/simulator.py:259-281 | A move of n pips in favour of a position earns ten times n per lot, to the cent |
| Simulator.FillIsWorse | program/services/algo-engine/src/algo_engine/backtesting/simulator.py:96-118 | A fill is worse than the market by half the spread and the slippage, up to half a tick of rounding |
| Simulator.EnteredAsSignalled | program/services/algo-engine/src/algo_engine/backtesting/simulator.py:120-149 | A position takes levels, lots and names of its signal and costs the commission of its lots to the nearest cent |
| Simulator.FlatRoundTrip | program/services/algo-engine/src/algo_engine/backtesting/simulator.py:104-118 | A flat round trip loses both fill costs, rounded to the cent, when the two readings of the direction agree, and nothing otherwise |
| Simulator.LowerCaseIsInconsistent | program/services/algo-engine/src/algo_engine/backtesting/simulator.py:283-287 | The direction "buy" is such a case |
| Simulator.FillImpliesBuy | program/services/algo-engine/src/algo_engine/backtesting/simulator.py:115-118 | A fill read as a purchase is a position read as one |
| Simulator.StopExitLoses | program/services/algo-engine/src/algo_engine/backtesting/simulator.py:179-194 | A stop on the losing side never earns |
| Simulator.AccountBalances | program/services/algo-engine/src/algo_engine/backtesting/simulator.py:120-281 | At every point equity is initial less commissions plus logged results, and every opened position is either open or logged |
| Simulator.EnteredFromSignals | program/services/algo-engine/src/algo_engine/backtesting/simulator.py:120-149 | Every position ever entered comes from a signal of the run |
| Simulator.BarDecides | program/services/algo-engine/src/algo_engine/backtesting/simulator.py:173-202 | A position stays open through a bar if and only if the bar stayed strictly between its levels; every one that leaves was reached, a stop before a target |
| Simulator.OnePlace | program/services/algo-engine/src/algo_engine/backtesting/simulator.py:120-281 | With distinct identifiers each is in exactly one of the two, once |
| Simulator.ClosedAccount | program/services/algo-engine/src/algo_engine/backtesting/simulator.py:206-218 | After close_all_positions equity is initial plus each trade's result net of commission |
| Simulator.LogIsHonest | program/services/algo-engine/src/algo_engine/backtesting/simulator.py:175-281 | Every logged trade left at the level its reason names, with a result within half a cent of the exact one |
| Simulator.CurveIsEquityPerBar | program/services/algo-engine/src/algo_engine/backtesting/simulator.py:204 | The curve holds the equity after each processed bar, in order |
| Simulator.TradeSimulator.OpenPosition | program/services/algo-engine/src/algo_engine/backtesting/simulator.py:120-149 | The method performs the opening step |
| Simulator.TradeSimulator.ProcessBar | program/services/algo-engine/src/algo_engine/backtesting/simulator.py:161-204 | Exits are booked in order, removal by reverse index leaves the survivors in order, the curve grows by one |
| Simulator.TradeSimulator.RemoveAll | program/services/algo-engine/src/algo_engine/backtesting/simulator.py:200-202 | Popping indices from the highest down equals filtering |
| Simulator.TradeSimulator.ClosePosition | program/services/algo-engine/src/algo_engine/backtesting/simulator.py:220-247 | Equity and log after one closing |
| Simulator.TradeSimulator.CloseAllPositions | program/services/algo-engine/src/algo_engine/backtesting/simulator.py:206-218 | Every open position is closed once, in order |
| Drawdown.MaxDrawdown | program/services/algo-engine/src/algo_engine/backtesting/metrics.py:230-255 | The loop computes the pass, rounded to four places |
| Drawdown.RoundedNear | program/services/algo-engine/src/algo_engine/backtesting/metrics.py:255 | Rounding moves the result by at most half of the fourth decimal |
| Drawdown.BoundsRunningDrops | program/services/algo-engine/src/algo_engine/backtesting/metrics.py:239-253 | For every curve the result bounds each point's drop from the maximum so far |
| Drawdown.Attained | program/services/algo-engine/src/algo_engine/backtesting/metrics.py:251-253 | The result is itself the drop between two points in order, with their value |
| Drawdown.BoundsAllPairs | program/services/algo-engine/src/algo_engine/backtesting/metrics.py:239-253 | It bounds the drop over all pairs in order whose later point is not negative, so with Attained it is their maximum for every solvent curve |
| Drawdown.MissesNothingIff | program/services/algo-engine/src/algo_engine/backtesting/metrics.py:239-253 | For every curve the result bounds the drop over all pairs in order, so with Attained is their maximum, if and only if the curve never falls below zero from a positive value, or some deepest such fall comes before any second positive level |
| Drawdown.SolventIffNoFall | program/services/algo-engine/src/algo_engine/backtesting/metrics.py:239-253 | From a positive start the first case is that the curve never goes negative |
| Drawdown.TwoPassesSuffice | program/services/algo-engine/src/algo_engine/backtesting/metrics.py:239-253 | The greater of the result and of the greatest drop of a negative point from the least positive value before it bounds all pairs of every curve |
| Drawdown.RuinIsMissed | program/services/algo-engine/src/algo_engine/backtesting/metrics.py:247-253 | If the point that sets the result is negative, every smaller positive value before it has a greater drop that the pass misses |
| Drawdown.ZeroIffRising | program/services/algo-engine/src/algo_engine/backtesting/metrics.py:230-255 | From a positive start it is zero if and only if the curve never falls |
| Drawdown.RuinIff | program/services/algo-engine/src/algo_engine/backtesting/metrics.py:230-255 | And above one hundred if and only if the account went negative |
| Drawdown.LossWithin | program/services/algo-engine/src/algo_engine/backtesting/metrics.py:247-253 | No pair of a solvent curve loses more money than the reported share of the curve's maximum |
| Drawdown.ValueIsGreatestAtMaximum | program/services/algo-engine/src/algo_engine/backtesting/metrics.py:251-253 | So the value reported is the greatest loss when it is that share of the maximum |
| Drawdown.ValueIsNotGreatest | program/services/algo-engine/src/algo_engine/backtesting/metrics.py:251-253 | Otherwise it need not be: for any two amounts a half of the smaller can be reported beside a loss of two fifths of the greater |
| PositionTracker.BuyStopIsMaximum | program/services/mt5-bridge/src/mt5_bridge/position_tracker.py:137-143 | Along any path a long stop is at least its start and every level asked for and obeyed |
| PositionTracker.SellStopIsMinimum | program/services/mt5-bridge/src/mt5_bridge/position_tracker.py:144-150 | A short stop is at most its start, unless none, and every such level |
| PositionTracker.StopIsAsked | program/services/mt5-bridge/src/mt5_bridge/position_tracker.py:137-150 | The stop is one of those levels or where it started |
| PositionTracker.AskedIff | program/services/mt5-bridge/src/mt5_bridge/position_tracker.py:119-150 | A level is asked for if and only if the quote is in profit by the activation distance, and lies the trail behind it |
| PositionTracker.PipInPoints | program/services/mt5-bridge/src/mt5_bridge/position_tracker.py:159-175 | A pip is one price step of an instrument with two or four decimals and ten of one with three or five |
| PositionTracker.PipGuessed | program/services/mt5-bridge/src/mt5_bridge/position_tracker.py:180-185 | Without the decimals the symbol decides between the pips of two and of four |
| PositionTracker.StopsNeverLoosen | program/services/mt5-bridge/src/mt5_bridge/position_tracker.py:117-150 | Whatever the broker refuses, no stop loosens between two points of a path |
| PositionTracker.AskedLevel | program/services/mt5-bridge/src/mt5_bridge/position_tracker.py:137-150 | A level asked for locks in at least activation less trail |
| PositionTracker.BreakEvenIff | program/services/mt5-bridge/src/mt5_bridge/position_tracker.py:137-150 | Every level asked for is at break-even or better if and only if activation >= trail |
| PositionTracker.ReportedOncePerVanishing | program/services/mt5-bridge/src/mt5_bridge/position_tracker.py:59-101 | Known tickets are the polled ones, each once, and each ticket was reported closed exactly as often as it vanished between answered polls |
| PositionTracker.KnownIsLastPoll | program/services/mt5-bridge/src/mt5_bridge/position_tracker.py:99-101 | What is known is what the last poll said |
| PositionTracker.ReportsTellDeals | program/services/mt5-bridge/src/mt5_bridge/position_tracker.py:71-97 | A closing reported carries the broker's result and price where there are any and otherwise the last ones seen |
| PositionTracker.MovesImprove | program/services/mt5-bridge/src/mt5_bridge/position_tracker.py:117-150 | Every stop moved belongs to a polled position whose broker accepted it, and improves it |
| PositionTracker.Tracker.Update | program/services/mt5-bridge/src/mt5_bridge/position_tracker.py:59-115 | The method performs the specification step and returns the new closings unless moving stops raises |
| PositionTracker.Tracker.RemoveClosed | program/services/mt5-bridge/src/mt5_bridge/position_tracker.py:69-97 | Vanished positions are recorded in order and deleted from the dictionary |
| PositionTracker.Tracker.UpdateTrailingStops | program/services/mt5-bridge/src/mt5_bridge/position_tracker.py:117-150 | The loop sends exactly the improving levels, up to the first call that raises |

## Left out

- Foreign I/O: connectors, publishers, RPC servers, MT5, PostgreSQL and Redis transport appear only as success, failure or an exception.
- SHA-256, JSON and time rendering: the hash is any function on strings and the chain theorems end in a collision between the payloads of the two chains or a payload that hashes to the start mark; rendered details and times are strings.
- Metrics, logging and audit messages of the components.
- DbWriter: the model also lets an insert succeed that begins after Close has cancelled its context. Not modelled: a disabled writer, a nil tick, record conversion, a second Close (which panics in the original) and partial COPY; an insert is all or nothing. Ticks and bars are two instances of one generic writer.
- TokenBucket: configurations with a zero window, zero requests or no capacity, which divide by zero or admit nothing; the Go client's conversion of the Redis reply; floating-point rounding of times and tokens.
- Aggregator.KeyInjective: timeframe names are taken free of colons, as the configured ones are.
- KillSwitch: the audit list and the hierarchical levels. A call is one step at one moment; a Redis command that takes effect after its call has timed out is not modelled.
- Audit.RunInv: flush and log_async are one step each; the original iterates a live list that log may shift while a write is awaited, and log_async may be overtaken by a flush of the entry it is writing.
- Audit.PostgresAuditTrail.Flush: is never interrupted; in the original close cancels a periodic flush under way, which then keeps the rows it has written in the buffer for the final flush to write again.
- Audit.PostgresAuditTrail.Log: requires a buffer of at least one entry; a smaller limit makes the original fail on its first entry.
- Bayesian: the Gaussian density is a parameter known only to be nonnegative; regime counts from 1 to 5; Thompson sampling and credible intervals.
- MovingAverages, Adx, ParabolicSar, Roots: the guard that replaces NaN and infinite inputs, and the 28-digit context of Decimal. Periods below one are modelled wherever the original handles them.
- MovingAverages.CalculateMacd: negative periods, which slice from the end or divide by zero in the original.
- Regime: the reasoning texts. Missing indicators read as zero, as in the original.
- OrderManager: conversions of ill-typed fields, and lots so large that Decimal's integer division fails. Lot laws assume a maximum that is not negative.
- Simulator: a pip value of zero, on which the original divides by zero; parsing of signal fields.
- PositionTracker.SellStopIsMinimum: assumes positive prices and a trail that is not negative, since a level of exactly zero means "no stop".
- PositionTracker.KnownIsLastPoll: assumes that one poll lists a ticket once.
- PositionTracker: a poll the connector could not make reads as an empty one there, so "vanished" includes tickets that were never closed.
- PositionTracker: commission and swap of a closed deal, closing times, gauges and the recently-closed query.
- Bollinger bands, ATR, stochastic and the other indicators: their laws are one-step copies of those proved here.
- Maturity gate, correlation checker, calendar, adaptive tuner, spread tracker and signal rate limiter: small counters and clamps.
- Copula, spectral, stochastic-process, extreme-value and Hurst modules: wrappers of floating-point libraries.
