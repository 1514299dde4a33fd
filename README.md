# New Relic Platform .NET SDK: runner, agent and epoch processor

A Dafny model of the core of the New Relic Platform SDK for .NET. A plugin
author writes `Agent`s, or `AgentFactory`s that create agents from a
configuration file, and registers them with a `Runner`. On setup the runner
merges the agents created by the factories into its agent list, then prepares
every agent with one shared `Context`. The first agent that has a version
names the context's version. Once a minute a timer fires. Each time, the
runner polls every agent, and the agents call `ReportMetric` on the shared
context. The runner then asks the context to send the reports to the service.
An `EpochProcessor` helps agents turn a cumulative counter into a per-second
rate.

Modules:

- `Base`: `Option` (C#'s `null`), the exceptions the core raises, `Outcome`
  (a call that completed or threw), and C# `int` arithmetic with 32-bit
  wrap-around.
- `Linq`: `Enumerable.Union` on sequences (order kept, duplicates dropped, first
  occurrence kept) and its `Distinct` core.
- `Binding`: the `IContext` collaborator. It holds a mutable `Version` and a ghost
  log of reports and sends.
- `Agents`: `Agent.PrepareToRun`, the two `ReportMetric` overloads, and the
  first-writer-wins version rule.
- `Runners`: the `Runner` class. This covers registration, setup, one poll cycle,
  the timer tick (an explicit `Tick` call) and the test-only iteration limit.
- `Processors`: `EpochProcessor.Process` as a class with a specification
  function `Transition`.
- `Scenarios`: the runner's functional tests and a few more behaviours, written
  as client methods over freshly created objects.

Inputs the core takes from outside become parameters:

- `DateTime.Now` is a tick count `now`.
- How each agent's `PollCycle()` ends is a function `pollCycle: Agent -> Outcome`.
- How `SendMetricsToService()` ends is an `Outcome`.
- The `NewRelicMaxIterations` setting is a constructor parameter.
- The concrete context's initial `Version` is also a constructor parameter.

Four behaviours of the code are easy to misread; the model keeps what the code does:

- **Agent exceptions.** One `try` encloses the whole agent loop
  (NewRelic.Platform.Sdk/Runner.cs:183-193), although its comment speaks of
  logging any exceptions that occur. The first agent that throws ends the
  polling for that cycle, and the agents after it are not polled. The send
  still happens. See `Runners.FirstThrowSkipsTheRest`.
- **Counter resets.** A negative rate returns null before the stored value and
  time are updated (NewRelic.Platform.Sdk/Processors/EpochProcessor.cs:29-31),
  so the old baseline is kept and later values are still measured against it.
  See `Processors.ResetSuppressesLaterRates`.
- **Iteration limit.** The comment at NewRelic.Platform.Sdk/Runner.cs:199 says
  the limit enables limited runs, but it stops nothing: `--_limit == 0` only
  returns from a method that was ending anyway. `SetupAndRunWithLimit` runs
  exactly one cycle whatever the limit, and never touches the cycle counter.
  Likewise `SetupAndRun` is documented as returning only on a fatal error
  (NewRelic.Platform.Sdk/Runner.cs:87-90), yet it returns as soon as the timer is
  enabled. See `Scenarios.LimitDoesNotStopPolling`.
- **Elapsed seconds.** These are `Convert.ToInt32(TotalSeconds)`
  (NewRelic.Platform.Sdk/Processors/EpochProcessor.cs:23). That rounds to the
  nearest integer, with ties to even, rather than truncating. See
  `Processors.RoundSeconds`.

## Model

| member | source | states |
|---|---|---|
| `Base.IsNullOrEmpty` | NewRelic.Platform.Sdk/Agent.cs:34 | `string.IsNullOrEmpty`: true exactly for null and for the string with no characters |
| `Base.WrapInt32` | NewRelic.Platform.Sdk/Runner.cs:22 | the C# `int` congruent to x modulo 2^32; x itself when in range |
| `Base.Increment` | NewRelic.Platform.Sdk/Runner.cs:157 | `++` on an `int`: one more modulo 2^32, exactly x+1 below `int.MaxValue` |
| `Base.Decrement` | NewRelic.Platform.Sdk/Runner.cs:200 | `--` on an `int`: one less modulo 2^32, exactly x-1 above `int.MinValue` |
| `Linq.Distinct` | NewRelic.Platform.Sdk/Runner.cs:136 | the result has no duplicates, holds exactly the elements of the input, and is no longer than it |
| `Linq.Union` | NewRelic.Platform.Sdk/Runner.cs:136 | `a.Union(b)`: no duplicates, exactly the elements of a and b, and begins with the distinct elements of a in order |
| `Linq.DistinctKeepsFirstOccurrenceOrder` | NewRelic.Platform.Sdk/Runner.cs:136 | Distinct keeps first occurrences in input order: an element whose first occurrence comes earlier also comes earlier in the result |
| `Linq.DistinctOfNoDuplicates` | NewRelic.Platform.Sdk/Runner.cs:136 | a sequence without duplicates is its own Distinct |
| `Linq.DistinctPrefix` | NewRelic.Platform.Sdk/Runner.cs:136 | Distinct(a) is a prefix of Distinct(a + b): the old agents keep their places |
| `Linq.DistinctAbsorbsPrefix` | NewRelic.Platform.Sdk/Runner.cs:134-137 | Distinct(Distinct(a) + b) == Distinct(a + b): a second union over an already-unioned list loses nothing |
| `Linq.UnionAssociates` | NewRelic.Platform.Sdk/Runner.cs:134-137 | two successive unions equal one Distinct over the concatenation of all three lists |
| `Linq.UnionOfDisjoint` | NewRelic.Platform.Sdk/Runner.cs:136 | the union of two duplicate-free, disjoint lists is their concatenation |
| `Binding.Context.constructor` | NewRelic.Platform.Sdk/Runner.cs:24-25 | a new context has the given version and has seen no calls |
| `Binding.Context.ReportMetric` | NewRelic.Platform.Sdk/Binding/IContext.cs:20 | records exactly one simple report with its arguments unchanged; the version is untouched |
| `Binding.Context.ReportStatisticalMetric` | NewRelic.Platform.Sdk/Agent.cs:63 | records exactly one statistical report with its nine arguments unchanged; the version is untouched |
| `Binding.Context.SendMetricsToService` | NewRelic.Platform.Sdk/Binding/IContext.cs:26 | records one send and ends as the concrete context decides |
| `Agents.PreparedVersion` | NewRelic.Platform.Sdk/Agent.cs:34-37 | the context's version becomes the agent's exactly when it was null or empty, and is kept otherwise |
| `Agents.SharedVersion` | NewRelic.Platform.Sdk/Runner.cs:174-177 | the version left by preparing a list of agents in order is the context's initial version or one of the agents' versions |
| `Agents.PreparedVersionIdempotent` | NewRelic.Platform.Sdk/Agent.cs:25-38 | preparing a second time with the same context changes the version no further |
| `Agents.SharedVersionKeepsSetVersion` | NewRelic.Platform.Sdk/Agent.cs:34-37 | a version already set on the context survives preparing any list of agents |
| `Agents.SharedVersionStaysUnset` | NewRelic.Platform.Sdk/Agent.cs:34-37 | while no agent has a version, the context's version stays null or empty |
| `Agents.SharedVersionFirstWriterWins` | NewRelic.Platform.Sdk/Agent.cs:34-37 | an unset context ends with the version of the first agent in list order that has one |
| `Agents.Agent.constructor` | NewRelic.Platform.Sdk/Agent.cs:12-19 | a new agent has its guid, version and name, and no context |
| `Agents.Agent.PrepareToRun` | NewRelic.Platform.Sdk/Agent.cs:25-38 | null throws `ArgumentNullException` with the source's message and keeps the old context; otherwise stores the context, applies the version rule and reports nothing |
| `Agents.Agent.ReportMetric` | NewRelic.Platform.Sdk/Agent.cs:46-49 | forwards exactly one report tagged with the agent's guid and name, arguments unchanged; without a context, a null dereference |
| `Agents.Agent.ReportStatisticalMetric` | NewRelic.Platform.Sdk/Agent.cs:61-64 | forwards exactly one report with value, count, min, max and sum of squares unchanged and unchecked; without a context, a null dereference |
| `Agents.AgentFactory.constructor` | NewRelic.Platform.Sdk/Runner.cs:136 | the factory's `CreateAgents()` result |
| `Runners.UnionWithFirstFactory` | NewRelic.Platform.Sdk/Runner.cs:134-136 | the first pass of the factory loop leaves the union of the old agents with the first factory's agents |
| `Runners.UnionWithNextFactory` | NewRelic.Platform.Sdk/Runner.cs:134-136 | each later pass extends the merge by one factory: the result is Distinct over the old agents and all factories so far |
| `Runners.GetPollInterval` | NewRelic.Platform.Sdk/Runner.cs:142-146 | the poll interval is one minute in milliseconds |
| `Runners.Created` | NewRelic.Platform.Sdk/Runner.cs:134-136 | the agents the factories create, in registration order: every agent some factory creates is there, and nothing else |
| `Runners.PolledAgents` | NewRelic.Platform.Sdk/Runner.cs:183-189 | the agents polled in one cycle are a prefix of the list; all but the last completed; if any were skipped, the last one polled threw |
| `Runners.CaughtException` | NewRelic.Platform.Sdk/Runner.cs:183-193 | the `catch` receives nothing exactly when every agent completes; otherwise the exception of the first agent in list order that throws |
| `Runners.AllPolledWhenNoneThrows` | NewRelic.Platform.Sdk/Runner.cs:183-193 | when no agent throws, every agent is polled and nothing is caught |
| `Runners.FirstThrowSkipsTheRest` | NewRelic.Platform.Sdk/Runner.cs:183-193 | the first agent that throws is the last polled; its exception is the one caught |
| `Runners.Runner.constructor` | NewRelic.Platform.Sdk/Runner.cs:22-52 | empty registries, counter 0, timer off, limit and limit flag from `NewRelicMaxIterations`, a fresh shared context |
| `Runners.Runner.AddAgent` | NewRelic.Platform.Sdk/Runner.cs:59-68 | null throws `ArgumentNullException("agent", …)` and changes nothing; otherwise appends at the end; the factories are never touched |
| `Runners.Runner.AddFactory` | NewRelic.Platform.Sdk/Runner.cs:76-85 | null throws `ArgumentNullException("factory", …)` and changes nothing; otherwise appends at the end; the agents are never touched |
| `Runners.Runner.InitializeFactoryAgents` | NewRelic.Platform.Sdk/Runner.cs:132-138 | the agent list becomes the distinct agents of the old list then of each factory's output, first occurrence kept |
| `Runners.Runner.SetupPollCycle` | NewRelic.Platform.Sdk/Runner.cs:160-178 | throws `InvalidOperationException` exactly when both registries are empty, changing nothing; otherwise merges the factories' agents only when there are factories and gives every agent the one shared context; an unset (null or empty) context version becomes that of the first agent in list order whose version is set |
| `Runners.Runner.PrepareAgents` | NewRelic.Platform.Sdk/Runner.cs:174-177 | every agent ends with the shared context; the context's version is the first-writer-wins fold over the list in order |
| `Runners.Runner.SetupAndRun` | NewRelic.Platform.Sdk/Runner.cs:91-95 | as `SetupPollCycle`; the timer is enabled only when setup completed |
| `Runners.Runner.PollAgents` | NewRelic.Platform.Sdk/Runner.cs:183-193 | polls in list order up to and including the first agent that throws, and returns that agent's exception |
| `Runners.Runner.ExecutePollCycle` | NewRelic.Platform.Sdk/Runner.cs:180-212 | polls as `PolledAgents`, then sends exactly once whatever the agents did; a send that throws is rethrown and leaves the limit; a completed send decrements the limit only in a limited run |
| `Runners.Runner.Tick` | NewRelic.Platform.Sdk/Runner.cs:154-158 | one poll cycle; the counter goes up by one exactly when the cycle did not throw |
| `Runners.Runner.SetupAndRunWithLimit` | NewRelic.Platform.Sdk/Runner.cs:226-232 | sets the limit, sets up, and runs exactly one cycle; the counter never changes; a failed setup leaves the agent list, polls nothing and sends nothing |
| `Processors.RoundSeconds` | NewRelic.Platform.Sdk/Processors/EpochProcessor.cs:23 | the whole number of seconds nearest to the span, a half going to the even neighbour |
| `Processors.RoundSecondsPositive` | NewRelic.Platform.Sdk/Processors/EpochProcessor.cs:23-24 | a forward span rounds to a positive number of seconds exactly when it exceeds half a second |
| `Processors.Transition` | NewRelic.Platform.Sdk/Processors/EpochProcessor.cs:16-40 | the rate is never negative; it exists exactly when both values and a rounded positive interval exist and the value did not drop; rate × seconds is the increase; a counter reset keeps the old baseline, and every other call moves the baseline to (val, now) |
| `Processors.FirstCallRecordsBaseline` | NewRelic.Platform.Sdk/Processors/EpochProcessor.cs:13-14 | the first call on a fresh processor returns null and records (val, now) |
| `Processors.NullValueForgetsLastValue` | NewRelic.Platform.Sdk/Processors/EpochProcessor.cs:21 | a null value returns null and stores null, so the following call returns null too |
| `Processors.NoIntervalMovesBaseline` | NewRelic.Platform.Sdk/Processors/EpochProcessor.cs:21-24 | a clock that did not advance by a rounded second gives null but still moves the baseline |
| `Processors.TenPerSecond` | NewRelic.Platform.Sdk/Processors/EpochProcessor.cs:26 | 10 and then 20 one second later give a rate of 10 |
| `Processors.ResetSuppressesLaterRates` | NewRelic.Platform.Sdk/Processors/EpochProcessor.cs:29-31 | after a counter reset, any later value still below the pre-reset value also gives null, because the old baseline was kept |
| `Processors.ResetExample` | NewRelic.Platform.Sdk/Processors/EpochProcessor.cs:29-31 | 20, then 5, then 10 one second apart: null twice, and the baseline stays at 20 |
| `Processors.EpochProcessor.constructor` | NewRelic.Platform.Sdk/Processors/EpochProcessor.cs:13-14 | a new processor has no last value and no last time |
| `Processors.EpochProcessor.Process` | NewRelic.Platform.Sdk/Processors/EpochProcessor.cs:16-40 | the returned rate and the new fields are exactly `Transition` of the old fields |
| `Scenarios.NewRunnerWithFactory` | NewRelic.Platform.Sdk.FunctionalTests/RunnerTest.cs:15-19 | the functional test's runner: two added agents and a factory creating two other agents |
| `Scenarios.SetupAndRunWithFactory` | NewRelic.Platform.Sdk.FunctionalTests/RunnerTest.cs:13-24 | after one limited run, that runner has four agents |
| `Scenarios.AddNullAgent` | NewRelic.Platform.Sdk.FunctionalTests/RunnerTest.cs:27-40 | adding a null agent throws `ArgumentNullException` and registers nothing |
| `Scenarios.SetupWithoutAdd` | NewRelic.Platform.Sdk/Runner.cs:160-165 | a limited run with nothing added throws `InvalidOperationException`, and the context sees no report and no send |
| `Scenarios.TenTicks` | NewRelic.Platform.Sdk.FunctionalTests/RunnerTest.cs:58-67 | ten ticks whose sends complete leave the counter at 10, with an agent whose name is empty |
| `Scenarios.FirstVersionWins` | NewRelic.Platform.Sdk/Agent.cs:34-37 | with agents versioned null, 1.2.0 and 2.0.0, the shared context ends at 1.2.0 |
| `Scenarios.ThrowingAgentSkipsTheRest` | NewRelic.Platform.Sdk/Runner.cs:183-197 | when the first of two agents throws, only it is polled and its exception is caught; the one send still happens, and the tick counts |
| `Scenarios.FailedSendIsRethrown` | NewRelic.Platform.Sdk/Runner.cs:195-211 | a throwing send is rethrown, and neither the counter nor the limit moves |
| `Scenarios.LimitDoesNotStopPolling` | NewRelic.Platform.Sdk/Runner.cs:199-203 | once the limit reaches 0, the next tick still polls, sends and counts, and the limit goes to -1; the context has seen exactly two sends |
| `Scenarios.ReportsReachTheContext` | NewRelic.Platform.Sdk.FunctionalTests/RunnerTest.cs:51-56 | a negative simple value and a statistical report both reach the shared context unchanged, in order, tagged with the agent's guid and name |
| `Scenarios.ReportBeforePrepare` | NewRelic.Platform.Sdk/Agent.cs:46-49 | reporting before `PrepareToRun` dereferences a null context |
| `Scenarios.ProcessRates` | NewRelic.Platform.Sdk/Processors/EpochProcessor.cs:16-40 | 10, 20, 5, 15 one second apart on a fresh processor give null, 10, null, null |

## Left out

- Proxy setup (`SetupProxy`, NewRelic.Platform.Sdk/Runner.cs:97-130) is global network configuration and is not part of this model. This includes its one rule, that a valid host without a port throws.
- Configuration loading (`NewRelicConfig.Instance`) is left out. The iteration limit it supplies is a constructor parameter.
- The `System.Timers.Timer` is not modelled: its construction, its `Elapsed` subscription and its real-time firing on a thread-pool thread. A tick is an explicit `Runner.Tick` call, so overlapping ticks and any concurrency are not modelled either. `timerEnabled` records only whether `SetupAndRun` enabled the timer.
- Logging (`Logger`, `s_log`) has no effect on behaviour and is left out. This includes the `GetAgentName()` call that `Add(Agent)` makes only to log.
- The concrete `Context` class is not part of this model. This covers its aggregation, its merge of unsent reports after a failed send, its serialization and its HTTP delivery. The context here keeps only `Version` and a ghost log of calls. Its initial version and the way each send ends are parameters.
- What an agent's `PollCycle()` does is user code. The model keeps only whether it completed or threw. Reports made inside a poll are not part of a cycle's log.
- `AgentFactory.CreateAgents()` reads a configuration file. Its result is a constructor field of `AgentFactory`, so the model assumes each factory returns the same agents whenever it is called.
- `IContext` (NewRelic.Platform.Sdk/Binding/IContext.cs) declares only the simple `ReportMetric`. The statistical overload that `Agent` calls (NewRelic.Platform.Sdk/Agent.cs:63) is modelled on `Binding.Context` with the same forwarding contract.
- `float` and `double` arithmetic is modelled with reals. Rounding of the rate and of `TotalSeconds` is not modelled.
- Processors.RoundSeconds: does not model the `OverflowException` that `Convert.ToInt32` raises for spans longer than 2^31 seconds (about 68 years), because the processor never sees such spans between two calls.
- The `EpochProcessor.LastValue` setter (NewRelic.Platform.Sdk/Processors/EpochProcessor.cs:47) is a test-only back door and is not modelled.
- Runners.Runner.SetupAndRunWithLimit: the body stores the limit after setup rather than before. Setup never reads the limit or the limit flag, so the two orders give the same state.
- `AgentFactory.CreateAgents()` cannot throw in the model. In the source, a factory that throws inside `InitializeFactoryAgents` (NewRelic.Platform.Sdk/Runner.cs:134-136) ends setup with the earlier factories' agents already merged, no agent prepared and the timer off; that path is not modelled.
- An agent's poll outcome is a function of the agent object, fixed for the cycle. An agent added twice is polled twice per cycle, and in C# the two `PollCycle()` calls could end differently (the first completing, the second throwing); the model gives both calls the same outcome.
