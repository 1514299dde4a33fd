/**
 `Agent`, the unit of user code the runner polls, and `AgentFactory`, which
 creates agents from a configuration file. The abstract members `Guid`,
 `Version` and `GetAgentName()` become constructor parameters; `PollCycle()`
 is user code whose outcome the runner receives as a parameter.
 */
module Agents {
  import opened Base
  import opened Binding

  /** The context's `Version` after one agent with version `agentVersion` is prepared with it. */
  function PreparedVersion(contextVersion: Option<string>, agentVersion: Option<string>): (v: Option<string>)
    ensures !IsNullOrEmpty(contextVersion) ==> v == contextVersion
    ensures IsNullOrEmpty(contextVersion) ==> v == agentVersion
  {
    if IsNullOrEmpty(contextVersion) then agentVersion else contextVersion
  }

  /** The context's `Version` after `agents` are prepared with it one after the other. */
  function SharedVersion(contextVersion: Option<string>, agents: seq<Agent>): (v: Option<string>)
    ensures v == contextVersion || exists i :: 0 <= i < |agents| && agents[i].version == v
  {
    if agents == [] then contextVersion
    else PreparedVersion(SharedVersion(contextVersion, agents[..|agents| - 1]), agents[|agents| - 1].version)
  }

  /** Preparing twice with the same context is the same as preparing once. */
  lemma PreparedVersionIdempotent(contextVersion: Option<string>, agentVersion: Option<string>)
    ensures PreparedVersion(PreparedVersion(contextVersion, agentVersion), agentVersion)
         == PreparedVersion(contextVersion, agentVersion)
  {
  }

  /** A version already set on the context is never overwritten. */
  lemma {:induction false} SharedVersionKeepsSetVersion(contextVersion: Option<string>, agents: seq<Agent>)
    requires !IsNullOrEmpty(contextVersion)
    ensures SharedVersion(contextVersion, agents) == contextVersion
  {
    if agents != [] {
      SharedVersionKeepsSetVersion(contextVersion, agents[..|agents| - 1]);
    }
  }

  /** While every agent has a null or empty version, the context's version stays null or empty. */
  lemma {:induction false} SharedVersionStaysUnset(contextVersion: Option<string>, agents: seq<Agent>)
    requires IsNullOrEmpty(contextVersion)
    requires forall j :: 0 <= j < |agents| ==> IsNullOrEmpty(agents[j].version)
    ensures IsNullOrEmpty(SharedVersion(contextVersion, agents))
  {
    if agents != [] {
      SharedVersionStaysUnset(contextVersion, agents[..|agents| - 1]);
    }
  }

  /** First writer wins: an unset context ends with the version of the first agent that has one. */
  lemma {:induction false} SharedVersionFirstWriterWins(contextVersion: Option<string>, agents: seq<Agent>, i: nat)
    requires IsNullOrEmpty(contextVersion)
    requires i < |agents| && !IsNullOrEmpty(agents[i].version)
    requires forall j :: 0 <= j < i ==> IsNullOrEmpty(agents[j].version)
    ensures SharedVersion(contextVersion, agents) == agents[i].version
  {
    var n := |agents| - 1;
    if i == n {
      SharedVersionStaysUnset(contextVersion, agents[..n]);
    } else {
      SharedVersionFirstWriterWins(contextVersion, agents[..n], i);
    }
  }

  class Agent {
    /** `Guid`: identifies the plugin the agent belongs to. */
    const guid: string
    /** `Version`: the plugin's version; may be null. */
    const version: Option<string>
    /** `GetAgentName()`: the component name shown in the service. */
    const name: string
    /** `_context`: set by `PrepareToRun`, null before. */
    var context: Context?

    constructor (guid: string, version: Option<string>, name: string)
      ensures this.guid == guid && this.version == version && this.name == name
      ensures context == null
    {
      this.guid := guid;
      this.version := version;
      this.name := name;
      context := null;
    }

    /** Attaches the shared context; the first agent with a version names the context's version. */
    method PrepareToRun(c: Context?) returns (r: Outcome)
      modifies this, c
      ensures c == null ==> r == Threw(ArgumentNullException("context",
                                         "You must pass an initialized context when calling PrepareToRun()"))
      ensures c == null ==> context == old(context)
      ensures c != null ==> r == Completed && context == c
      ensures c != null ==> c.version == PreparedVersion(old(c.version), version) && c.log == old(c.log)
    {
      if c == null {
        return Threw(ArgumentNullException("context",
                                           "You must pass an initialized context when calling PrepareToRun()"));
      }
      context := c;
      if IsNullOrEmpty(context.version) {
        context.version := version;
      }
      r := Completed;
    }

    /** `ReportMetric(metricName, units, float? value)`: one report, tagged with this agent's guid and name. */
    method ReportMetric(metricName: string, units: string, value: Option<real>) returns (r: Outcome)
      modifies context
      ensures context == null ==> r == Threw(NullReferenceException)
      ensures context != null ==> r == Completed && context.version == old(context.version)
      ensures context != null ==>
        context.log == old(context.log) + [Reported(SimpleReport(guid, name, metricName, units, value))]
    {
      if context == null {
        return Threw(NullReferenceException);
      }
      context.ReportMetric(guid, name, metricName, units, value);
      r := Completed;
    }

    /** The statistical `ReportMetric` overload: all five numbers are forwarded unchecked. */
    method ReportStatisticalMetric(metricName: string, units: string, value: real, count: int32,
                                   min: real, max: real, sumOfSquares: real) returns (r: Outcome)
      modifies context
      ensures context == null ==> r == Threw(NullReferenceException)
      ensures context != null ==> r == Completed && context.version == old(context.version)
      ensures context != null ==>
        context.log == old(context.log)
                       + [Reported(StatisticalReport(guid, name, metricName, units,
                                                     value, count, min, max, sumOfSquares))]
    {
      if context == null {
        return Threw(NullReferenceException);
      }
      context.ReportStatisticalMetric(guid, name, metricName, units, value, count, min, max, sumOfSquares);
      r := Completed;
    }
  }

  /** An `AgentFactory`; the agents it creates from its configuration file are a constructor parameter. */
  class AgentFactory {
    /** What `CreateAgents()` returns. */
    const created: seq<Agent>

    constructor (created: seq<Agent>)
      ensures this.created == created
    {
      this.created := created;
    }
  }
}
