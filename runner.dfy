/**
 `Runner`: keeps the registered agents and factories, prepares every agent
 with one shared context, and once per timer tick polls the agents and asks
 the context to send what they reported. The `System.Timers.Timer` is
 replaced by explicit calls of `Tick`; the configuration object by
 constructor parameters.
 */
module Runners {
  import opened Base
  import opened Binding
  import opened Agents
  import opened Linq

  /** `GetPollInterval()`: the timer period in milliseconds, one minute. */
  function GetPollInterval(): (ms: int32)
    ensures ms as int == 60 * 1000
  {
    var pollInterval: int32 := 60;
    pollInterval * 1000
  }

  /** Everything the factories create, factory by factory in registration order. */
  function Created(factories: seq<AgentFactory>): (created: seq<Agent>)
    ensures forall i, a :: 0 <= i < |factories| && a in factories[i].created ==> a in created
    ensures forall a :: a in created ==> exists i :: 0 <= i < |factories| && a in factories[i].created
  {
    if factories == [] then []
    else Created(factories[..|factories| - 1]) + factories[|factories| - 1].created
  }

  /**
   The agents whose `PollCycle()` one cycle invokes, given how each call ends:
   all of them in list order, up to and including the first that throws.
   */
  function PolledAgents(agents: seq<Agent>, pollCycle: Agent -> Outcome): (polled: seq<Agent>)
    ensures polled <= agents
    ensures forall i :: 0 <= i < |polled| - 1 ==> pollCycle(polled[i]).Completed?
    ensures |polled| < |agents| ==> polled != [] && pollCycle(polled[|polled| - 1]).Threw?
  {
    if agents == [] then []
    else if pollCycle(agents[0]).Threw? then [agents[0]]
    else [agents[0]] + PolledAgents(agents[1..], pollCycle)
  }

  /**
   The exception the poll loop's `catch` receives, if any: that of the first
   agent in list order whose `PollCycle()` throws.
   */
  function CaughtException(agents: seq<Agent>, pollCycle: Agent -> Outcome): (caught: Option<Exception>)
    ensures caught.None? <==> forall j :: 0 <= j < |agents| ==> pollCycle(agents[j]).Completed?
    ensures caught.Some? ==>
      exists k :: 0 <= k < |agents| && pollCycle(agents[k]) == Threw(caught.value)
                  && forall j :: 0 <= j < k ==> pollCycle(agents[j]).Completed?
  {
    if agents == [] then None
    else if pollCycle(agents[0]).Threw? then Some(pollCycle(agents[0]).exception)
    else
      var rest := CaughtException(agents[1..], pollCycle);
      assert forall j :: 1 <= j < |agents| ==> agents[j] == agents[1..][j - 1];
      rest
  }

  /** When no agent throws, every agent is polled and nothing is caught. */
  lemma {:induction false} AllPolledWhenNoneThrows(agents: seq<Agent>, pollCycle: Agent -> Outcome)
    requires forall j :: 0 <= j < |agents| ==> pollCycle(agents[j]).Completed?
    ensures PolledAgents(agents, pollCycle) == agents
    ensures CaughtException(agents, pollCycle) == None
  {
    if agents != [] {
      AllPolledWhenNoneThrows(agents[1..], pollCycle);
    }
  }

  /** An agent that throws ends the cycle's polling: the agents after it are skipped. */
  lemma {:induction false} FirstThrowSkipsTheRest(agents: seq<Agent>, pollCycle: Agent -> Outcome, k: nat)
    requires k < |agents| && pollCycle(agents[k]).Threw?
    requires forall j :: 0 <= j < k ==> pollCycle(agents[j]).Completed?
    ensures PolledAgents(agents, pollCycle) == agents[..k + 1]
    ensures CaughtException(agents, pollCycle) == Some(pollCycle(agents[k]).exception)
  {
    if k > 0 {
      FirstThrowSkipsTheRest(agents[1..], pollCycle, k - 1);
      assert [agents[0]] + agents[1..][..k] == agents[..k + 1];
    }
  }

  /** The first step of `InitializeFactoryAgents`: the union with the first factory's agents. */
  lemma UnionWithFirstFactory(start: seq<Agent>, factories: seq<AgentFactory>)
    requires factories != []
    ensures Union(start, factories[0].created) == Distinct(start + Created(factories[..1]))
  {
    assert factories[..1][..0] == [];
    assert Created(factories[..1]) == factories[0].created;
  }

  /** A later step of `InitializeFactoryAgents`: unioning in factory `k` extends the merge to the first `k + 1` factories. */
  lemma UnionWithNextFactory(start: seq<Agent>, factories: seq<AgentFactory>, k: nat)
    requires 0 < k < |factories|
    ensures Union(Distinct(start + Created(factories[..k])), factories[k].created)
         == Distinct(start + Created(factories[..k + 1]))
  {
    var before, next := Created(factories[..k]), factories[k].created;
    assert factories[..k + 1][..k] == factories[..k];
    assert start + Created(factories[..k + 1]) == start + before + next;
    calc {
      Union(Distinct(start + before), next);
      Union(Union(start, before), next);
      { UnionAssociates(start, before, next); }
      Distinct(start + before + next);
    }
  }

  class Runner {
    /** `_agents`. */
    var agents: seq<Agent>
    /** `_factories`. */
    var factories: seq<AgentFactory>
    /** `_context`: the one context every agent is prepared with. */
    const context: Context
    /** `_pollCycleCounter`: completed timer ticks. */
    var pollCycleCounter: int32
    /** `_limit` and `_limitRun`: the test-only iteration limit. */
    var limit: int32
    var limitRun: bool
    /** Whether the poll-cycle timer is enabled. */
    var timerEnabled: bool

    /**
     `maxIterations` is the configuration's `NewRelicMaxIterations`; the concrete
     context's initial `Version` is not part of this model, so it is a parameter.
     */
    constructor (maxIterations: Option<int32>, initialContextVersion: Option<string>)
      ensures agents == [] && factories == [] && pollCycleCounter == 0 && !timerEnabled
      ensures limitRun == maxIterations.Some?
      ensures limit == if maxIterations.Some? then maxIterations.value else 0
      ensures fresh(context) && context.version == initialContextVersion && context.log == []
    {
      agents := [];
      factories := [];
      context := new Context(initialContextVersion);
      pollCycleCounter := 0;
      limit := if maxIterations.Some? then maxIterations.value else 0;
      limitRun := maxIterations.Some?;
      timerEnabled := false;
    }

    /** The agents that setup may prepare: those added and those the factories create. */
    ghost function SetupFootprint(): set<Agent>
      reads this
    {
      set a | a in agents + Created(factories)
    }

    /** `Add(Agent)`: rejects null, otherwise appends. */
    method AddAgent(agent: Agent?) returns (r: Outcome)
      modifies this`agents
      ensures agent == null ==> r == Threw(ArgumentNullException("agent", "You must pass in a non-null agent"))
      ensures agent == null ==> agents == old(agents)
      ensures agent != null ==> r == Completed && agents == old(agents) + [agent]
    {
      if agent == null {
        return Threw(ArgumentNullException("agent", "You must pass in a non-null agent"));
      }
      agents := agents + [agent];
      r := Completed;
    }

    /** `Add(AgentFactory)`: rejects null, otherwise appends. */
    method AddFactory(factory: AgentFactory?) returns (r: Outcome)
      modifies this`factories
      ensures factory == null ==> r == Threw(ArgumentNullException("factory", "You must pass in a non-null factory"))
      ensures factory == null ==> factories == old(factories)
      ensures factory != null ==> r == Completed && factories == old(factories) + [factory]
    {
      if factory == null {
        return Threw(ArgumentNullException("factory", "You must pass in a non-null factory"));
      }
      factories := factories + [factory];
      r := Completed;
    }

    /** `InitializeFactoryAgents()`: unions each factory's agents into the agent list. */
    method InitializeFactoryAgents()
      modifies this`agents
      ensures factories == [] ==> agents == old(agents)
      ensures factories != [] ==> agents == Distinct(old(agents) + Created(factories))
    {
      var k := 0;
      while k < |factories|
        invariant 0 <= k <= |factories|
        invariant k == 0 ==> agents == old(agents)
        invariant k > 0 ==> agents == Distinct(old(agents) + Created(factories[..k]))
      {
        var f := factories[k];
        if k == 0 {
          UnionWithFirstFactory(old(agents), factories);
        } else {
          UnionWithNextFactory(old(agents), factories, k);
        }
        agents := Union(agents, f.created);
        k := k + 1;
      }
      assert factories[..k] == factories;
    }

    /** `setupPollCycle()`: fails when nothing was added, else materialises and prepares the agents. */
    method SetupPollCycle() returns (r: Outcome)
      modifies this`agents, context, SetupFootprint()
      ensures r.Threw? <==> old(agents) == [] && factories == []
      ensures r.Threw? ==>
        r.exception == InvalidOperationException("You must first call 'Add()' at least once with a valid factory or agent")
      ensures r.Threw? ==> agents == old(agents) && unchanged(context)
      ensures r.Completed? ==>
        agents == if factories == [] then old(agents) else Distinct(old(agents) + Created(factories))
      ensures r.Completed? ==> forall a :: a in agents ==> a.context == context
      ensures r.Completed? ==>
        context.version == SharedVersion(old(context.version), agents) && context.log == old(context.log)
    {
      if |factories| == 0 && |agents| == 0 {
        return Threw(InvalidOperationException("You must first call 'Add()' at least once with a valid factory or agent"));
      }
      if |factories| > 0 {
        InitializeFactoryAgents();
        assert forall a :: a in agents ==> a in old(SetupFootprint());
      }
      PrepareAgents();
      r := Completed;
    }

    /** The loop of `setupPollCycle()` that prepares each agent, in list order, with the shared context. */
    method PrepareAgents()
      modifies context, set a | a in agents
      ensures forall a :: a in agents ==> a.context == context
      ensures context.version == SharedVersion(old(context.version), agents)
      ensures context.log == old(context.log)
    {
      var i := 0;
      while i < |agents|
        invariant 0 <= i <= |agents|
        invariant forall j :: 0 <= j < i ==> agents[j].context == context
        invariant context.version == SharedVersion(old(context.version), agents[..i])
        invariant context.log == old(context.log)
      {
        assert agents[..i + 1][..i] == agents[..i];
        var _ := agents[i].PrepareToRun(context);
        i := i + 1;
      }
      assert agents[..i] == agents;
    }

    /** `SetupAndRun()`: sets up, then enables the timer; a failed setup leaves the timer off. */
    method SetupAndRun() returns (r: Outcome)
      modifies this`agents, this`timerEnabled, context, SetupFootprint()
      ensures r.Threw? <==> old(agents) == [] && factories == []
      ensures r.Threw? ==> timerEnabled == old(timerEnabled) && agents == old(agents) && unchanged(context)
      ensures r.Completed? ==> timerEnabled
      ensures r.Completed? ==>
        agents == if factories == [] then old(agents) else Distinct(old(agents) + Created(factories))
      ensures r.Completed? ==> forall a :: a in agents ==> a.context == context
      ensures r.Completed? ==>
        context.version == SharedVersion(old(context.version), agents) && context.log == old(context.log)
    {
      r := SetupPollCycle();
      if r.Threw? {
        return;
      }
      timerEnabled := true;
    }

    /**
     `executePollCycle()`: polls the agents in list order, catching the first
     exception (which ends the polling), then sends once. A send that throws is
     rethrown; a send that completes counts down the limit when one is set,
     and reaching zero changes nothing else.
     */
    method ExecutePollCycle(pollCycle: Agent -> Outcome, send: Outcome)
      returns (polled: seq<Agent>, caught: Option<Exception>, r: Outcome)
      modifies this`limit, context
      ensures polled == PolledAgents(agents, pollCycle)
      ensures caught == CaughtException(agents, pollCycle)
      ensures context.log == old(context.log) + [Sent(send)]
      ensures r == send
      ensures limit == if send.Completed? && limitRun then Decrement(old(limit)) else old(limit)
    {
      polled, caught := PollAgents(pollCycle);
      r := context.SendMetricsToService(send);
      if r.Completed? && limitRun {
        limit := Decrement(limit);
      }
    }

    /** The first half of `executePollCycle()`: poll the agents in order until one throws, and catch that. */
    method PollAgents(pollCycle: Agent -> Outcome) returns (polled: seq<Agent>, caught: Option<Exception>)
      ensures polled == PolledAgents(agents, pollCycle)
      ensures caught == CaughtException(agents, pollCycle)
    {
      var i := 0;
      while i < |agents|
        invariant 0 <= i <= |agents|
        invariant forall j :: 0 <= j < i ==> pollCycle(agents[j]).Completed?
      {
        var outcome := pollCycle(agents[i]);
        if outcome.Threw? {
          FirstThrowSkipsTheRest(agents, pollCycle, i);
          return agents[..i + 1], Some(outcome.exception);
        }
        i := i + 1;
      }
      AllPolledWhenNoneThrows(agents, pollCycle);
      polled, caught := agents, None;
    }

    /** The timer's `Elapsed` handler: one poll cycle, then one more on the counter unless the send threw. */
    method Tick(pollCycle: Agent -> Outcome, send: Outcome)
      returns (polled: seq<Agent>, caught: Option<Exception>, r: Outcome)
      modifies this`limit, this`pollCycleCounter, context
      ensures polled == PolledAgents(agents, pollCycle)
      ensures caught == CaughtException(agents, pollCycle)
      ensures context.log == old(context.log) + [Sent(send)]
      ensures r == send
      ensures limit == if send.Completed? && limitRun then Decrement(old(limit)) else old(limit)
      ensures pollCycleCounter == if r.Completed? then Increment(old(pollCycleCounter)) else old(pollCycleCounter)
    {
      polled, caught, r := ExecutePollCycle(pollCycle, send);
      if r.Threw? {
        return;
      }
      pollCycleCounter := Increment(pollCycleCounter);
    }

    /** `SetupAndRunWithLimit(limit)`: sets the limit, sets up, runs exactly one cycle; the counter is untouched. */
    method SetupAndRunWithLimit(newLimit: int32, pollCycle: Agent -> Outcome, send: Outcome)
      returns (polled: seq<Agent>, caught: Option<Exception>, r: Outcome, ghost setUp: bool)
      modifies this`agents, this`limit, this`limitRun, context, SetupFootprint()
      ensures setUp <==> old(agents) != [] || factories != []
      ensures limitRun && pollCycleCounter == old(pollCycleCounter)
      ensures !setUp ==> r.Threw? && r.exception.InvalidOperationException? && limit == newLimit
      ensures !setUp ==> agents == [] && polled == [] && caught == None && unchanged(context)
      ensures setUp ==> agents == if factories == [] then old(agents) else Distinct(old(agents) + Created(factories))
      ensures setUp ==> forall a :: a in agents ==> a.context == context
      ensures setUp ==> polled == PolledAgents(agents, pollCycle) && caught == CaughtException(agents, pollCycle)
      ensures setUp ==> context.log == old(context.log) + [Sent(send)]
      ensures setUp ==> r == send && limit == if send.Completed? then Decrement(newLimit) else newLimit
    {
      // `setupPollCycle()` does not read the limit, so setting it after setup is
      // the same as setting it before, as the source does.
      polled, caught := [], None;
      r := SetupPollCycle();
      limitRun, limit := true, newLimit;
      setUp := r.Completed?;
      if r.Threw? {
        return;
      }
      polled, caught, r := ExecutePollCycle(pollCycle, send);
    }
  }
}
