/**
 The `IContext` collaborator. Every agent of a runner is handed the same
 context; it collects their metric reports and sends them to the service
 once per poll cycle. Its aggregation, retry and delivery belong to the
 concrete `Context` class, which is not part of this model: here the
 context keeps the `Version` property the agents write, and a ghost log of
 the calls made on it. Whether a send throws is decided by the concrete
 class, so it is a parameter of `SendMetricsToService`.
 */
module Binding {
  import opened Base

  /** The arguments of one `ReportMetric` call, as the context receives them. */
  datatype Report =
    | SimpleReport(guid: string, componentName: string, metricName: string, units: string,
                   nullableValue: Option<real>)
    | StatisticalReport(guid: string, componentName: string, metricName: string, units: string,
                        value: real, count: int32, min: real, max: real, sumOfSquares: real)

  /** One call on the context. */
  datatype Event = Reported(report: Report) | Sent(outcome: Outcome)

  class Context {
    /** The `Version` property; null until an agent sets it. */
    var version: Option<string>
    /** Every report and send made on this context, oldest first. */
    ghost var log: seq<Event>

    constructor (initialVersion: Option<string>)
      ensures version == initialVersion && log == []
    {
      version := initialVersion;
      log := [];
    }

    /** `ReportMetric(guid, componentName, metricName, units, float? value)`. */
    method ReportMetric(guid: string, componentName: string, metricName: string, units: string,
                        value: Option<real>)
      modifies this
      ensures version == old(version)
      ensures log == old(log) + [Reported(SimpleReport(guid, componentName, metricName, units, value))]
    {
      log := log + [Reported(SimpleReport(guid, componentName, metricName, units, value))];
    }

    /** The overload taking a pre-aggregated value with its count, min, max and sum of squares. */
    method ReportStatisticalMetric(guid: string, componentName: string, metricName: string, units: string,
                                   value: real, count: int32, min: real, max: real, sumOfSquares: real)
      modifies this
      ensures version == old(version)
      ensures log == old(log) + [Reported(StatisticalReport(guid, componentName, metricName, units,
                                                            value, count, min, max, sumOfSquares))]
    {
      log := log + [Reported(StatisticalReport(guid, componentName, metricName, units,
                                               value, count, min, max, sumOfSquares))];
    }

    /** `SendMetricsToService()`: ends as the concrete context decides (`outcome`). */
    method SendMetricsToService(outcome: Outcome) returns (r: Outcome)
      modifies this
      ensures r == outcome
      ensures log == old(log) + [Sent(outcome)]
    {
      log := log + [Sent(outcome)];
      r := outcome;
    }
  }
}
