# runpod-exporter: a verified model of the poll runner and the metric store

runpod-exporter polls the Runpod API, one loop per enabled domain, and serves what it last saw as
Prometheus metrics. This project models the parts in which something can go wrong quietly, and proves
what they guarantee: who may be polling when, for how long, and after shutdown; what the metric vecs show
at each instant, also when several domains write at once; and which domain lists are accepted.

`dafny verify dfyconfig.toml` checks everything.

## How the system is modelled

**The poll runner** (`PollRunner.dfy`, source `internal/collector/domain.go`). One domain is a timed
transition system: the loop goroutine and the monitor goroutine of the poll in flight (control points
`Main` and `Monitor`), the context they share (absent, live, or done with its first cause), the ticker
with its one-slot channel, and a clock. `Enabled` and `Do` give each atomic step; a `select` with several
ready cases is several enabled actions. `pollTimeout`, `shutdownGrace`, the interval and the instant of
shutdown are parameters. A run is a sequence of actions. `Legal` runs obey no scheduling assumption:
all safety results are about them. `Timely` runs assume that nothing ready waits longer than `latency`
and that `Poll` returns within `work` of its context being done: the upper bounds and the termination
results are about those, with both durations symbolic and possibly zero. Progress never counts on `Poll`
returning before its context is done: a hung request is told to stop by the timers, or not at all.
`starts`, `ticks`, `lost` and `finished` in the state are history.

**Run** (`Fleet.dfy`) is any number of such loops on one clock, started one by one, with the WaitGroup
counter. Run's own goroutine may be delayed too.

**The metric store** (`Metrics.dfy`). A vec is a map from label values to numbers. `MetricStore` is the
registry as a mutable object with the atomic operations `Reset`, `Set`, `Gauge` (a plain gauge) and `Inc`;
its ghost `log` records them in order, so every intermediate state of a poll is a prefix of the log. Each
domain's `Poll` is a method with the loops of the source, its API answers being parameters (`Api.Call`: a
transport error, a status without a JSON200 body, or a value). The operations it performs (`PollOps`) are
tied to a `Reading` per item, which says declaratively what one pod, endpoint, offer or cluster reports
for a given series; the results speak of readings. `Answers.View` is the projection of everything the API
answers during one poll, and `Programs.dfy` shows that each domain's operations amount to it. Over whole runs
(`Serving.dfy`, `Runner.dfy`) and in every interleaving of the domains' loops (`Interference.dfy`) what the
registry shows is stated in terms of those answers.

**Start-up** (`Config.dfy`, `Text.dfy`, `Startup.dfy`) is `parseDomains`, the interval floor, `Build` and
the spawning loop of `Run`, with comma splitting and Unicode space trimming written out.

## Results worth knowing

- After shutdown the loop may still start polls, because `select` may keep choosing a waiting tick. With
  `g = min(shutdownGrace, pollTimeout)` plus the time `Poll` takes to give up, their number is bounded if
  and only if the interval exceeds `g`, scheduling delays aside (`PollWitness.BoundedIff`). The largest
  number is then exactly `1 + interval/(interval - g)`, rounded down, as long as a poll before shutdown can outlast the
  interval, for the loop may be late when shutdown comes, and one otherwise (`PollWitness.MostPollsExact`).
  The accepted minimum of 5 s equals the grace, so it is not bounded there
  (`Startup.MinimumIntervalUnbounded`). At the default 30 s it is one.
- Interference between domains is ruled out exactly by distinct names. `parseDomains` accepts
  `pod,pod`, and the two loops can leave a registry mixing two responses.
- The help text of `runpod_exporter_scrape_duration_seconds` says "last poll"
  (`internal/metrics/self.go:23`); the code sets it on success only. The model follows the code and states
  when the two agree.

## Model

| member | source | states |
|---|---|---|
| PollSafety.NeverCutOffEarly | internal/collector/domain.go:81-108 | in every interleaving a running Poll's context is not done before min(start + timeout, max(start, shutdown) + grace); a deadline is recorded only after the timeout, a cancellation only after the grace |
| PollSafety.FirstCauseSticks | internal/collector/domain.go:82-108 | once a poll's context is done, its cause and instant never change while the poll lasts |
| PollSafety.JoinedAndSequential | internal/collector/domain.go:66-108 | poll records, returns and loop goes on only after monitorDone is closed and the context is done; loop returns only after shutdown; at most one poll is in flight and each is recorded before the next is entered |
| PollSafety.AlwaysSafe | internal/collector/domain.go:63-119 | the invariant of the runner holds after any legal run |
| PollSafety.TicksConserved | internal/collector/domain.go:65-73 | the grid instants passed are exactly the ticks consumed, waiting in the channel, or lost |
| PollSafety.WaitingTickStays | internal/collector/domain.go:65-73 | a tick in the channel stays there until the loop takes it: later ones are dropped, none replaces it |
| PollSafety.RateBound | internal/collector/domain.go:63-75 | polls started so far, plus ticks waiting and lost, are at most 1 + elapsed/interval since the ticker exists, for polls of any duration; lost ticks are never made up |
| PollHistory.RecordsWhatHappened | internal/collector/domain.go:103-118 | in every legal run the i-th record is what the i-th Poll returned, with the time from creating its context to that return and the instant of recording, all read off the actions of the run alone |
| PollTiming.CutOffOnTime | internal/collector/domain.go:81-108 | under bounded latency the context is done by the cut-off plus the latency of four steps, and with no latency exactly at the cut-off; Poll is over at most its give-up time later |
| PollTiming.PollEnds | internal/collector/domain.go:23-32 | a hung request cannot wedge the loop: from the moment a poll is entered, and as long as the run has not left it, with or without shutdown, the clock is within the timeout, the give-up time and ten scheduling steps, the number of steps is bounded, and there is a further step that does not count on Poll returning of its own accord |
| PollTiming.BoundedAfterShutdown | internal/collector/domain.go:63-75 | if the interval exceeds one turn, no run enters more than 1 + (interval + latency)/(interval - turn) polls at or after shutdown, whatever select chooses |
| PollTiming.NeverStuck | internal/collector/domain.go:63-108 | in every reachable state before loop returns some step is enabled or the clock can move, however tight the latency and even if Poll hangs until it is told to stop: no deadlock and no timelock |
| PollTiming.LoopReturns | internal/collector/domain.go:60-75 | after shutdown, with interval above one turn: the clock stays within an explicit instant, every run is finite with an explicit bound, and can stop only once loop has returned, even if every Poll hangs until it is told to stop |
| PollTiming.StepsLeftFalls | internal/collector/domain.go:63-108 | the termination measure over control points, remaining time and remaining polls falls with every step |
| PollIdle.AtMostOneAfter | internal/collector/domain.go:63-75 | with an interval no shorter than any poll at most one poll is entered after shutdown |
| PollWitness.Unbounded | internal/collector/domain.go:67-73 | for intervals up to the longest poll every number of polls after shutdown is exceeded by some run |
| PollWitness.BoundedIff | internal/collector/domain.go:67-108 | without latency the polls after shutdown are bounded if and only if the interval exceeds min(grace, timeout) plus the give-up time |
| PollWitness.MostPollsExact | internal/collector/domain.go:67-108 | without latency, for every interval above min(grace, timeout) plus the give-up time, the largest number of polls after shutdown is exactly the bound if a poll before shutdown can outlast the interval, and one if none can |
| Fleet.RunJoinsEverything | internal/collector/domain.go:44-58 | when Run returns, every domain has had its loop, shutdown has come, and no loop, poll, monitor or live context remains, for any number of domains and any interleaving |
| Fleet.AlwaysAccounted | internal/collector/domain.go:45-57 | the WaitGroup counter is always the number of loops that have not returned |
| Fleet.EveryLoopReturns | internal/collector/domain.go:41-58 | inside any fleet each loop obeys its own return instant and its own bound on polls after shutdown |
| Fleet.FleetNeverStuck | internal/collector/domain.go:44-58 | before Run returns, Run itself, some goroutine or timer, or the clock can move, without counting on any Poll to return before it is told to stop |
| Fleet.RunReturns | internal/collector/domain.go:41-58 | Run terminates, its own goroutine being delayed by at most a given latency per step: the clock stays within an explicit instant, every run of the fleet is finite with an explicit bound, and can stop only once Run has returned, even if every Poll hangs until told to stop |
| Metrics.MetricStore.Reset | internal/collector/pod.go:32-40 | drops every series of the vec and no other |
| Metrics.MetricStore.Set | internal/collector/pod.go:47-49 | writes one series and no other |
| Metrics.MetricStore.Inc | internal/collector/domain.go:112 | adds one to one counter series, which starts from zero |
| Metrics.Pointwise | internal/collector/pod.go:32-85 | a sequence of operations can be followed series by series |
| Metrics.BlocksWrite | internal/collector/pod.go:42-85 | a loop whose passes write exactly their readings leaves each series at the last reading for it |
| Metrics.LastReadingIff | internal/collector/pod.go:42-85 | the last reading is x exactly if some item reads x and no later item reads anything |
| Decimal.ItoaInjective | internal/collector/pod.go:75-76 | different GPU indices print differently |
| Decimal.ItoaDigits | internal/collector/pod.go:75 | the text of an index is its decimal digits, no more and no fewer |
| Pod.Poll | internal/collector/pod.go:23-88 | succeeds exactly if the call does; then the nine vecs show the last reading of each series and nothing else changes; on failure nothing changes, and the error carries the fault in the source's context |
| Pod.PublishPod | internal/collector/pod.go:43-84 | one pass performs the operations of the pod: four series always, each runtime series if present |
| Pod.PodWrites | internal/collector/pod.go:42-84 | the operations of a pod write exactly its readings: no other series, each optional only if present |
| PodSeries.LastPodWins | internal/collector/pod.go:42-84 | for any list, duplicates included, a series has value x exactly if some pod reports x for it and no later pod reports it |
| PodSeries.EachPodItsOwn | internal/collector/pod.go:42-84 | with distinct ids each series shows its own pod's reading, and none exists for an id not listed |
| PodSeries.CostAndDiskKeys | internal/collector/pod.go:48-49 | with distinct ids the cost and disk series are exactly the listed pods', with their values |
| PodSeries.UpSeries | internal/collector/pod.go:43-47 | with distinct ids there is one up series per pod, 1 exactly if its status is RUNNING and 0 otherwise |
| PodSeries.InfoSeries | internal/collector/pod.go:50-59 | with distinct ids there is one info series per pod: id, image, data center, cloud, GPU id in that order, an absent one empty |
| PodSeries.RuntimeSeries | internal/collector/pod.go:61-73 | uptime, CPU and memory series show the runtime's values, and exist exactly if every optional value on their path is present |
| PodSeries.GpuSeries | internal/collector/pod.go:74-83 | the series labelled with the decimal of i shows GPU i |
| PodSeries.GpuSeriesCount | internal/collector/pod.go:74-83 | there are as many GPU utilisation series as GPUs with a reading |
| Serverless.FetchWorkers | internal/collector/serverless.go:35-45 | the response at index i is the one fetched for endpoint i; the first failing call decides the error |
| Serverless.Poll | internal/collector/serverless.go:25-79 | succeeds exactly if every call does; then the five vecs show the aligned responses; a failure at any position changes nothing and the error is that of the first failing call |
| Serverless.CountStale | internal/collector/serverless.go:69-74 | the stale count is the cardinality of the set of stale workers |
| Serverless.EndpointWrites | internal/collector/serverless.go:53-76 | one pass writes exactly the endpoint's configuration, its five state counts and its stale count |
| Serverless.OwnResponse | internal/collector/serverless.go:53-76 | an endpoint with no later namesake shows its own configuration, each of the five counts of the summary fetched at its position under its own label, and the number of stale workers in it |
| Serverless.NothingElse | internal/collector/serverless.go:47-76 | a series exists exactly if some listed endpoint reports it |
| Catalog.FetchGpus | internal/collector/catalog.go:51-62 | each product's response is that of its own call; the first failing one decides the error |
| Catalog.Poll | internal/collector/catalog.go:48-106 | all or nothing over the three product calls and the CPU call; the error is that of the first failing one |
| Catalog.PublishAvailability | internal/collector/catalog.go:84-94 | the triple loop writes the offers of all responses in order, skipping GPUs without data centers |
| Catalog.AvailabilityByProduct | internal/collector/catalog.go:84-94 | the availability of a product is the projection of its own response alone: the passes never overwrite one another |
| Catalog.OfferOrigin | internal/collector/catalog.go:86-93 | the offers of a response are exactly its GPUs' data centers |
| Catalog.PriceKeys | internal/collector/catalog.go:76-82 | the GPU price series are exactly the first response's GPU ids in the two clouds |
| Catalog.LevelShown | internal/collector/catalog.go:31-44 | the last entry of a product's response for a GPU type in a data center is shown as 1 for LOW, 2 for MEDIUM, 3 for HIGH and 0 otherwise |
| Catalog.NoOtherLevel | internal/collector/catalog.go:84-94 | no availability series exists for a pair the product's response does not list |
| Catalog.PriceShown | internal/collector/catalog.go:76-82 | the SECURE and COMMUNITY series show the secure and community price of the last GPU type with that id in the first response |
| Catalog.CpuPriceShown | internal/collector/catalog.go:96-103 | the SECURE and SERVERLESS series show the two prices of the last CPU type with that id |
| Cluster.PublishStatuses | internal/collector/cluster.go:41-43 | walks each status of the map once, in an arbitrary order |
| Cluster.Poll | internal/collector/cluster.go:22-47 | succeeds exactly if the call does; the two vecs then show a view in which no iteration order appears |
| Cluster.OrderDoesNotMatter | internal/collector/cluster.go:34-44 | any two iteration orders of the maps leave the same registry |
| Cluster.LastClusterWins | internal/collector/cluster.go:34-44 | with repeated ids the last cluster of the list reporting a series decides it |
| Cluster.OwnCluster | internal/collector/cluster.go:34-44 | a cluster with no later namesake shows its id, kind and data center as labels in that order, and the count of each of its statuses |
| Cluster.NoOtherCluster | internal/collector/cluster.go:31-44 | no series is shown that is not a listed cluster's |
| Registry.Poll | internal/collector/registry.go:24-48 | all or nothing over the two calls, for the vec and the plain gauge; the error is that of the first failing call |
| Registry.PollShows | internal/collector/registry.go:41-45 | the info series are exactly the listed registries' and the gauge is the number of delegations |
| Registry.RegistriesShown | internal/collector/registry.go:41-45 | the info series are one per listed registry, labelled with id and name and of value 1, and the gauge has one series, the number of delegations |
| SelfMetrics.Record | internal/collector/domain.go:110-118 | a failure adds one to the error counter and leaves both gauges; a success sets both gauges and leaves the counter; no other series changes |
| SelfMetrics.Accounting | internal/collector/domain.go:110-118 | over any sequence of polls a series of the domain is the number of failures, or the instant or duration of the latest success, absent if there is none; nothing else is recorded |
| SelfMetrics.LatestSuccessIff | internal/collector/domain.go:110-118 | the latest success is the poll that succeeded and after which none did |
| SelfMetrics.AccountingByPolls | internal/collector/domain.go:110-118 | on the registry the error counter is the cardinality of the set of failed polls, and the two gauges are the instant in whole seconds and the duration in seconds of the successful poll after which none succeeded |
| SelfMetrics.RunAccounting | internal/collector/domain.go:103-118 | along any run the error counter on the registry plus the successes add up to the completed polls, and neither the counter nor the last-success timestamp ever falls |
| SelfMetrics.RegistryOfRun | internal/collector/domain.go:110-118 | the error counter is the number of recorded returns of Poll with an error among the actions of the run, and the gauges are the second of recording and the duration of the latest recorded return without one |
| SelfMetrics.DurationOfLastPollIff | internal/metrics/self.go:21-24 | the duration gauge is that of the last poll exactly if that poll succeeded or the gauge showed that value already |
| SelfMetrics.DurationNotOfLastPoll | internal/metrics/self.go:21-24 | a run of the poll runner in which a two-second poll fails after a one-second success: one second stays on display |
| Generations.NoMixedGenerations | internal/collector/serverless.go:47-76 | at every point of a poll each vec is exactly as before if the poll has not touched it yet, and otherwise holds exactly what this poll has written so far |
| Serving.StaleServe | internal/collector/domain.go:103-118 | for every sequence of polls each series of the domain is the projection of the last fully successful answer, or untouched if there is none |
| Answers.LastGoodIff | internal/collector/domain.go:103-118 | the last good answer is a successful one after which none succeeded |
| Serving.AlwaysOneGeneration | internal/collector/domain.go:63-119 | at every operation of every poll of any run, those of the record included, a vec shows the last good answer, or what the next poll has written to it so far, every series of it reported by that poll's answer; and that answer once Poll is done |
| Interference.InterferenceFreeIff | internal/collector/domain.go:44-58 | no interleaving lets one domain disturb another if and only if the names are distinct |
| Interference.DuplicateDomainsMix | internal/collector/client.go:29-56 | with pod listed twice, two complete polls can leave a registry that shows both responses |
| Interference.LoopsAreScheduled | internal/collector/domain.go:46-56 | every interleaving of domain loops keeps each loop within its own vecs and its own label |
| Interference.ConcurrentOneGeneration | internal/collector/domain.go:44-58 | the same with distinct names at every point of every interleaving of any number of loops, each anywhere inside a poll or its record |
| Interference.ConcurrentAccounting | internal/collector/domain.go:110-118 | at every point of every interleaving, also between the two writes of a record, each of a domain's own three series is what its completed polls make it, or what they make it with the poll being recorded |
| Programs.PodProgram | internal/collector/pod.go:32-85 | a successful pod poll stays within the nine vecs, refreshes each, makes them show the projection of the response, and writes nothing on the way that the response does not report |
| Programs.ServerlessProgram | internal/collector/serverless.go:47-76 | the same for the five serverless vecs and the aligned responses |
| Programs.CatalogProgram | internal/collector/catalog.go:72-103 | the same for the three catalog vecs and the responses of the four calls |
| Programs.ClusterProgram | internal/collector/cluster.go:31-44 | the same for the two cluster vecs, in any iteration order |
| Programs.RegistryProgram | internal/collector/registry.go:41-45 | the same for the registry vec and the plain gauge |
| Runner.PollOnce | internal/collector/domain.go:103-118 | d.Poll followed by the record, for five domains: afterwards the series of the domain are the projection of the answer if all its calls succeeded and unchanged otherwise, no other domain's series changes, and the self-metrics are those of the outcome |
| Runner.PollRepeatedly | internal/collector/domain.go:63-75 | over any sequence of API answers each series of the domain is the projection of the last fully successful answer, or absent, and its own series are those of the outcomes |
| Text.JoinSplit | internal/config/config.go:118 | splitting and joining on commas gives the text back, and no part holds a comma |
| Text.SplitJoin | internal/config/config.go:118 | joining and splitting gives the parts back |
| Text.PartsAndCommas | internal/config/config.go:118 | there is one part more than there are commas, and no comma in any |
| Text.TrimmedIff | internal/config/config.go:121 | the characters trimmed are exactly those with the listed code points |
| Text.TrimSplits | internal/config/config.go:121 | trimming removes blanks only, and leaves none at either end |
| Config.ParseDomains | internal/config/config.go:106-134 | "all" gives every domain; otherwise the trimmed non-empty items if there are some and all are known; else an error naming the first unknown one, or that there are none |
| Config.RoundTrip | internal/config/config.go:118-133 | a non-empty list of known names written with any spaces and empty items parses back to itself, in order |
| Config.SpacedListParses | internal/config/config.go:118-133 | known names separated by commas and surrounded by any blanks, tabs and line ends are accepted as that list |
| Config.KnownIff | internal/config/config.go:17-20 | the nine known names, and what "all" stands for |
| Config.AcceptedIff | internal/config/config.go:106-134 | other than "all", a text is accepted as a list exactly if it is some writing of that list |
| Config.RejectedIff | internal/config/config.go:120-132 | other than "all", a text is rejected exactly if some trimmed non-empty part is unknown or none remains |
| Config.ParseJoined | internal/config/config.go:106-134 | parsing is idempotent through join |
| Config.ParseInterval | internal/config/config.go:136-145 | an interval is accepted exactly if it parses and is at least 5 s, and then is the parsed duration |
| Startup.Build | internal/collector/client.go:29-56 | keeps the names with a collector, in order and with repetitions |
| Startup.Collector | internal/collector/client.go:32-52 | the collector of each of the nine names |
| Startup.RunLoops | internal/collector/domain.go:46-56 | one loop per domain; pod, serverless, account and cluster on the fast interval, the others on the slow one |
| Startup.Start | internal/config/config.go:69-81 | every accepted configuration gets one loop per parsed name, in order, of the collector the name stands for, on the fast interval for pod, serverless, account and cluster and on the slow one for the other five, never below 5 s |
| Startup.DuplicatesAccepted | internal/config/config.go:118-129 | "pod,pod" is accepted, and its loops interfere |
| Startup.MinimumIntervalUnbounded | internal/config/config.go:15 | at the smallest accepted interval no number bounds the polls after shutdown |
| Startup.DefaultsBounded | internal/config/config.go:49 | from the default of 30 s up at most one poll per domain is entered after shutdown |

## Left out

- HTTP, the generated client, URLs and authentication: a call is its outcome.
- `cmd/runpod-exporter/main.go`: it does not wait for `Run`, so what is proved about shutdown is about `Run`, not the process.
- The bodies of the billing, account, template and network-volume polls: single calls of the same pattern. In the results over runs and interleavings such a poll is any program that makes the vecs of its domain show the series its response reports (`Answers.OtherAnswer`).
- `Parse` beyond the domain list and the two intervals: flags, environment, API key, URL and log level are one-branch facts or library grammars.
- `time.ParseDuration`: its outcome is a parameter.
- Prometheus internals and float rounding: the operations on a vec are atomic and values are real numbers.
- Preemption between the lines that make up one action, such as creating the context and spawning the monitor: such a delay counts as latency before the action.
- Time in steps smaller than one unit, and the wall clock being set back: instants are natural numbers of one unit, nanoseconds where the program's constants appear.
- A panic or a nil JSON body inside a successful response: responses are complete values.
- PollWitness.BoundedIff: states the exact condition without scheduling latency. With latency it is bounded above one turn (`PollTiming.BoundedAfterShutdown`) and unbounded up to the longest poll (`PollWitness.Unbounded`); between the two lie 14 latencies.
- PollTiming.BoundedAfterShutdown: polls are counted from the instant select takes the tick, a moment before the context exists.
- Startup.DefaultsBounded: assumes that Poll gives up and 13 scheduling steps pass within 14 s together.
- Logging, the error text itself beyond its context and fault, dashboards and deployment files.
