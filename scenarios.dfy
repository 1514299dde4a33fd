/**
 Clients of the runner that replay its functional tests and the behaviours
 they rely on, over freshly created agents, factories and runners. Each
 scenario states its observable result in its postcondition.
 */
module Scenarios {
  import opened Base
  import opened Binding
  import opened Agents
  import opened Linq
  import opened Runners
  import Processors

  /** A runner with a factory of two agents and then two agents added, as in the functional test. */
  method NewRunnerWithFactory() returns (runner: Runner, ghost added: seq<Agent>, ghost created: seq<Agent>)
    ensures fresh(runner) && fresh(runner.context)
    ensures |added| == 2 && |created| == 2
    ensures added[0] != added[1] && created[0] != created[1]
    ensures forall a :: a in added + created ==> fresh(a)
    ensures added[0] != created[0] && added[0] != created[1] && added[1] != created[0] && added[1] != created[1]
    ensures runner.agents == added && runner.factories != [] && Created(runner.factories) == created
  {
    var f1 := new Agent("com.test.plugin", Some("1.0.0"), "FunctionalTest1");
    var f2 := new Agent("com.test.plugin", Some("1.0.0"), "FunctionalTest2");
    var a3 := new Agent("com.test.plugin", Some("1.0.0"), "FunctionalTest3");
    var a4 := new Agent("com.test.plugin", Some("1.0.0"), "FunctionalTest4");
    var factory := new AgentFactory([f1, f2]);
    assert Created([factory]) == [f1, f2];
    runner := new Runner(None, None);
    var _ := runner.AddFactory(factory);
    var _ := runner.AddAgent(a3);
    var _ := runner.AddAgent(a4);
    added, created := [a3, a4], [f1, f2];
  }

  /** Setting up and running once with a factory of two agents and two added agents gives four agents. */
  method SetupAndRunWithFactory() returns (agentCount: nat)
    ensures agentCount == 4
  {
    var runner, added, created := NewRunnerWithFactory();
    FourAgentsUnion(added[0], added[1], created[0], created[1]);
    assert added == [added[0], added[1]] && created == [created[0], created[1]];
    var _, _, _, _ := runner.SetupAndRunWithLimit(1, _ => Completed, Completed);
    agentCount := |runner.agents|;
  }

  lemma FourAgentsUnion(a3: Agent, a4: Agent, f1: Agent, f2: Agent)
    requires a3 != a4 && f1 != f2 && a3 != f1 && a3 != f2 && a4 != f1 && a4 != f2
    ensures Distinct([a3, a4] + [f1, f2]) == [a3, a4, f1, f2]
  {
    UnionOfDisjoint([a3, a4], [f1, f2]);
  }

  /** Adding a null agent throws `ArgumentNullException` and registers nothing. */
  method AddNullAgent() returns (r: Outcome, agentCount: nat)
    ensures r.Threw? && r.exception.ArgumentNullException? && r.exception.paramName == "agent"
    ensures agentCount == 0
  {
    var runner := new Runner(None, None);
    r := runner.AddAgent(null);
    agentCount := |runner.agents|;
  }

  /** Setting up a runner to which nothing was added throws before any cycle: the context sees no call. */
  method SetupWithoutAdd() returns (r: Outcome, ghost log: seq<Event>)
    ensures r.Threw? && r.exception.InvalidOperationException?
    ensures log == []
  {
    var runner := new Runner(None, None);
    var _, _, r', _ := runner.SetupAndRunWithLimit(1, _ => Completed, Completed);
    r := r';
    log := runner.context.log;
  }

  /** Ten ticks whose sends complete leave the poll-cycle counter at ten. */
  method TenTicks() returns (counter: int32)
    ensures counter == 10
  {
    var runner := new Runner(None, None);
    var agent := new Agent("com.test.plugin", Some("1.0.0"), "");
    var _ := runner.AddAgent(agent);
    var _ := runner.SetupAndRun();
    var n := 0;
    while n < 10
      invariant 0 <= n <= 10
      invariant runner.pollCycleCounter as int == n
      invariant fresh(runner.context)
    {
      var _, _, _ := runner.Tick(_ => Completed, Completed);
      n := n + 1;
    }
    counter := runner.pollCycleCounter;
  }

  /** The first agent with a version names the shared context's version. */
  method FirstVersionWins() returns (version: Option<string>)
    ensures version == Some("1.2.0")
  {
    var runner := new Runner(None, None);
    var a1 := new Agent("com.test.a", None, "A");
    var a2 := new Agent("com.test.b", Some("1.2.0"), "B");
    var a3 := new Agent("com.test.c", Some("2.0.0"), "C");
    var _ := runner.AddAgent(a1);
    var _ := runner.AddAgent(a2);
    var _ := runner.AddAgent(a3);
    assert runner.agents == [a1, a2, a3] && runner.factories == [];
    var _ := runner.SetupAndRun();
    SharedVersionFirstWriterWins(None, [a1, a2, a3], 1);
    version := runner.context.version;
  }

  /**
   An agent that throws ends that cycle's polling (the next agent is skipped),
   but the send still happens and the tick still counts.
   */
  method ThrowingAgentSkipsTheRest()
    returns (polledCount: nat, counter: int32, caught: Option<Exception>, ghost log: seq<Event>)
    ensures polledCount == 1 && counter == 1
    ensures caught == Some(ExternalException("poll failed"))
    ensures log == [Sent(Completed)]
  {
    var runner := new Runner(None, None);
    var a1 := new Agent("com.test.a", None, "A");
    var a2 := new Agent("com.test.b", None, "B");
    var _ := runner.AddAgent(a1);
    var _ := runner.AddAgent(a2);
    var _ := runner.SetupAndRun();
    var poll := (a: Agent) => if a == a1 then Threw(ExternalException("poll failed")) else Completed;
    FirstThrowSkipsTheRest([a1, a2], poll, 0);
    var polled, c, _ := runner.Tick(poll, Completed);
    log := runner.context.log;
    polledCount, counter, caught := |polled|, runner.pollCycleCounter, c;
  }

  /** A send that throws is rethrown, and neither the counter nor the limit moves. */
  method FailedSendIsRethrown() returns (r: Outcome, counter: int32, limit: int32)
    ensures r == Threw(ExternalException("unauthorized"))
    ensures counter == 0 && limit == 3
  {
    var runner := new Runner(Some(3), None);
    var agent := new Agent("com.test.plugin", Some("1.0.0"), "A");
    var _ := runner.AddAgent(agent);
    var _ := runner.SetupAndRun();
    var _, _, r' := runner.Tick(_ => Completed, Threw(ExternalException("unauthorized")));
    r, counter, limit := r', runner.pollCycleCounter, runner.limit;
  }

  /** Reaching a limit of zero stops nothing: the next tick polls, sends and counts as usual. */
  method LimitDoesNotStopPolling() returns (limit: int32, counter: int32, polledCount: nat, ghost log: seq<Event>)
    ensures limit == -1 && counter == 1 && polledCount == 1
    ensures log == [Sent(Completed), Sent(Completed)]
  {
    var runner := new Runner(None, None);
    var agent := new Agent("com.test.plugin", Some("1.0.0"), "A");
    var _ := runner.AddAgent(agent);
    var _, _, _, _ := runner.SetupAndRunWithLimit(1, _ => Completed, Completed);
    assert runner.limit == 0;
    var polled, _, _ := runner.Tick(_ => Completed, Completed);
    log := runner.context.log;
    limit, counter, polledCount := runner.limit, runner.pollCycleCounter, |polled|;
  }

  /** An agent's two kinds of report reach the context unchanged, tagged with its guid and name. */
  method ReportsReachTheContext() returns (r1: Outcome, r2: Outcome, ghost log: seq<Event>)
    ensures r1 == Completed && r2 == Completed
    ensures log == [Reported(SimpleReport("com.test.plugin", "Agent", "Component/Rate", "ops/second", Some(-10.0))),
                    Reported(StatisticalReport("com.test.plugin", "Agent", "Component/Stats", "ms",
                                               2.5, 4, 1.0, 4.0, 30.0))]
  {
    var runner := new Runner(None, None);
    var agent := new Agent("com.test.plugin", Some("1.0.0"), "Agent");
    var _ := runner.AddAgent(agent);
    var _ := runner.SetupAndRun();
    r1 := agent.ReportMetric("Component/Rate", "ops/second", Some(-10.0));
    r2 := agent.ReportStatisticalMetric("Component/Stats", "ms", 2.5, 4, 1.0, 4.0, 30.0);
    log := runner.context.log;
  }

  /** Before `PrepareToRun`, reporting dereferences a null context. */
  method ReportBeforePrepare() returns (r: Outcome)
    ensures r == Threw(NullReferenceException)
  {
    var agent := new Agent("com.test.plugin", None, "Agent");
    r := agent.ReportMetric("Component/Rate", "ops/second", Some(1.0));
  }

  /** Two `Process` calls one second apart on a fresh processor, then a counter reset. */
  method ProcessRates() returns (first: Option<real>, second: Option<real>, reset: Option<real>, after: Option<real>)
    ensures first == None && second == Some(10.0) && reset == None && after == None
  {
    var p := new Processors.EpochProcessor();
    var t := 637_000_000_000_000_000;
    first := p.Process(Some(10.0), t);
    second := p.Process(Some(20.0), t + Processors.TicksPerSecond);
    reset := p.Process(Some(5.0), t + 2 * Processors.TicksPerSecond);
    after := p.Process(Some(15.0), t + 3 * Processors.TicksPerSecond);
  }
}
