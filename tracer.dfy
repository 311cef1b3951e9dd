/**
 * The interaction tracer behind the observability tools: every traced
 * interaction is kept, counted, classified by keyword into at most one of
 * three usage counters, and its calendar date joins the set of engagement
 * days. The tools `log_interaction`, `get_system_metrics` and
 * `get_recent_traces` work on one shared tracer, passed here as a parameter.
 */
module Tracer {
  import opened Prelude

  /** One traced interaction; `metadata` is the dict the caller passed, or empty. */
  datatype Trace = Trace(timestamp: string, agent: string, userInput: string, response: string, metadata: Fields)

  /** The metrics as `get_metrics` reports them: the engagement days become their count. */
  datatype TracerMetrics = TracerMetrics(
    totalInteractions: nat,
    carbonCalculations: nat,
    recommendationsProvided: nat,
    goalsSet: nat,
    userEngagementDays: nat)

  /** The usage counter an interaction bumps, if any. */
  datatype Kind = CarbonCalculation | Recommendation | GoalSetting | Uncounted

  /**
   * The first keyword family the lower-cased input contains decides the
   * counter: "carbon" before "recommend"/"suggest" before "goal".
   */
  function KindOf(userInput: string): (k: Kind)
    ensures k == CarbonCalculation <==> Contains(Lower(userInput), "carbon")
    ensures k == Recommendation <==>
      !Contains(Lower(userInput), "carbon") &&
      (Contains(Lower(userInput), "recommend") || Contains(Lower(userInput), "suggest"))
    ensures k == GoalSetting <==>
      !Contains(Lower(userInput), "carbon") && !Contains(Lower(userInput), "recommend") &&
      !Contains(Lower(userInput), "suggest") && Contains(Lower(userInput), "goal")
    ensures k == Uncounted <==>
      !Contains(Lower(userInput), "carbon") && !Contains(Lower(userInput), "recommend") &&
      !Contains(Lower(userInput), "suggest") && !Contains(Lower(userInput), "goal")
  {
    var text := Lower(userInput);
    if Contains(text, "carbon") then CarbonCalculation
    else if Contains(text, "recommend") || Contains(text, "suggest") then Recommendation
    else if Contains(text, "goal") then GoalSetting
    else Uncounted
  }

  /** 1 when the interaction's kind is `k`, else 0. */
  function Bump(userInput: string, k: Kind): (r: nat)
    ensures r <= 1
    ensures r == 1 <==> KindOf(userInput) == k
  {
    if KindOf(userInput) == k then 1 else 0
  }

  /** An interaction bumps at most one of the three counters. */
  lemma AtMostOneCounter(userInput: string)
    ensures Bump(userInput, CarbonCalculation) + Bump(userInput, Recommendation) + Bump(userInput, GoalSetting) <= 1
  {
  }

  /** A string lacking the needle's first character does not contain the needle. */
  lemma {:induction false} MissingFirstLetter(hay: string, needle: string)
    requires needle != [] && needle[0] !in hay
    ensures !Contains(hay, needle)
    decreases |hay|
  {
    if hay != [] {
      assert hay[0] in hay && forall c :: c in hay[1..] ==> c in hay;
      MissingFirstLetter(hay[1..], needle);
    }
  }

  /**
   * Precedence on inputs that name several families: a carbon question
   * that mentions a goal is a carbon calculation, and a request to suggest a
   * goal is a recommendation, not a goal.
   */
  lemma KeywordPrecedence()
    ensures KindOf("carbon goal") == CarbonCalculation
    ensures KindOf("suggest a goal") == Recommendation
  {
    LowerOfLower("carbon goal");
    LowerOfLower("suggest a goal");
    assert "carbon" <= "carbon goal";
    assert "suggest" <= "suggest a goal";
    MissingFirstLetter("suggest a goal", "carbon");
  }

  /** The metadata passed, or an empty dict when there is none. */
  function MetadataOr(metadata: Option<Fields>): (r: Fields)
    ensures metadata.None? ==> r == []
    ensures metadata.Some? ==> r == metadata.value
  {
    if metadata.Some? then metadata.value else []
  }

  class EcoAgentTracer {
    var traces: seq<Trace>
    var totalInteractions: nat
    var carbonCalculations: nat
    var recommendationsProvided: nat
    var goalsSet: nat
    var engagementDays: set<string>

    /**
     * Every interaction is traced once and counted once; each counts toward
     * at most one usage counter and adds at most one engagement day.
     */
    ghost predicate Valid()
      reads this
    {
      totalInteractions == |traces| &&
      carbonCalculations + recommendationsProvided + goalsSet <= totalInteractions &&
      |engagementDays| <= totalInteractions
    }

    constructor ()
      ensures Valid()
      ensures traces == [] && engagementDays == {}
      ensures totalInteractions == 0 && carbonCalculations == 0
      ensures recommendationsProvided == 0 && goalsSet == 0
    {
      traces := [];
      totalInteractions := 0;
      carbonCalculations := 0;
      recommendationsProvided := 0;
      goalsSet := 0;
      engagementDays := {};
    }

    /**
     * `trace_interaction`: append one trace stamped `now`, count it, bump the
     * counter its input's keywords select, and record the day `date`.
     */
    method TraceInteraction(agent: string, userInput: string, response: string,
                            metadata: Option<Fields>, now: string, date: string)
      requires Valid()
      modifies this
      ensures Valid()
      ensures traces == old(traces) + [Trace(now, agent, userInput, response, MetadataOr(metadata))]
      ensures totalInteractions == old(totalInteractions) + 1
      ensures carbonCalculations == old(carbonCalculations) + Bump(userInput, CarbonCalculation)
      ensures recommendationsProvided == old(recommendationsProvided) + Bump(userInput, Recommendation)
      ensures goalsSet == old(goalsSet) + Bump(userInput, GoalSetting)
      ensures engagementDays == old(engagementDays) + {date}
    {
      traces := traces + [Trace(now, agent, userInput, response, MetadataOr(metadata))];
      totalInteractions := totalInteractions + 1;
      var text := Lower(userInput);
      if Contains(text, "carbon") {
        carbonCalculations := carbonCalculations + 1;
      } else if Contains(text, "recommend") || Contains(text, "suggest") {
        recommendationsProvided := recommendationsProvided + 1;
      } else if Contains(text, "goal") {
        goalsSet := goalsSet + 1;
      }
      AtMostOneCounter(userInput);
      assert |engagementDays + {date}| <= |engagementDays| + 1;
      engagementDays := engagementDays + {date};
    }

    /**
     * `get_traces(limit)`: the most recent `limit` traces, oldest first; a
     * zero limit gives every trace and a negative one drops that many of the
     * oldest.
     */
    function GetTraces(limit: int): (r: seq<Trace>)
      reads this
      ensures IsSuffix(r, traces)
      ensures limit > 0 ==> |r| == if limit < |traces| then limit else |traces|
      ensures limit == 0 ==> r == traces
      ensures limit < 0 ==> |r| == if -limit < |traces| then |traces| + limit else 0
    {
      SliceFromEnd(traces, limit)
    }

    /** `get_metrics`: the counters and the number of distinct engagement days. */
    function GetMetrics(): (r: TracerMetrics)
      reads this
      ensures r.totalInteractions == totalInteractions
      ensures r.carbonCalculations == carbonCalculations
      ensures r.recommendationsProvided == recommendationsProvided
      ensures r.goalsSet == goalsSet
      ensures r.userEngagementDays == |engagementDays|
      ensures Valid() ==> r.carbonCalculations + r.recommendationsProvided + r.goalsSet <= r.totalInteractions
      ensures Valid() ==> r.userEngagementDays <= r.totalInteractions
    {
      TracerMetrics(totalInteractions, carbonCalculations, recommendationsProvided, goalsSet, |engagementDays|)
    }
  }

  /** The metadata `log_interaction` attaches: empty without a context. */
  function ContextMetadata(context: Option<ToolContext>): (r: Fields)
    ensures context.None? ==> r == []
    ensures context.Some? ==> |r| == 2 && DistinctKeys(r)
    ensures context.Some? ==> Get(r, "user_id") == Some(Text(OrUnknown(context.value.userId)))
    ensures context.Some? ==> Get(r, "session_id") == Some(Text(OrUnknown(context.value.sessionId)))
  {
    if context.None? then []
    else [("user_id", Text(OrUnknown(context.value.userId))),
          ("session_id", Text(OrUnknown(context.value.sessionId)))]
  }

  /** A context attribute, or "unknown" when the context lacks it. */
  function OrUnknown(attribute: Option<string>): (r: string)
    ensures attribute.Some? ==> r == attribute.value
    ensures attribute.None? ==> r == "unknown"
  {
    if attribute.Some? then attribute.value else "unknown"
  }

  datatype LogResult = LogResult(status: string, timestamp: string)

  /** `log_interaction`: trace the interaction on the shared tracer with the context's ids. */
  method LogInteraction(tracer: EcoAgentTracer, agent: string, userInput: string, response: string,
                        context: Option<ToolContext>, now: string, date: string) returns (r: LogResult)
    requires tracer.Valid()
    modifies tracer
    ensures tracer.Valid()
    ensures tracer.traces == old(tracer.traces) + [Trace(now, agent, userInput, response, ContextMetadata(context))]
    ensures tracer.totalInteractions == old(tracer.totalInteractions) + 1
    ensures tracer.carbonCalculations == old(tracer.carbonCalculations) + Bump(userInput, CarbonCalculation)
    ensures tracer.recommendationsProvided == old(tracer.recommendationsProvided) + Bump(userInput, Recommendation)
    ensures tracer.goalsSet == old(tracer.goalsSet) + Bump(userInput, GoalSetting)
    ensures tracer.engagementDays == old(tracer.engagementDays) + {date}
    ensures r == LogResult("Interaction logged", now)
  {
    tracer.TraceInteraction(agent, userInput, response, Some(ContextMetadata(context)), now, date);
    r := LogResult("Interaction logged", now);
  }

  datatype SystemMetrics = SystemMetrics(metrics: TracerMetrics, timestamp: string)

  /** `get_system_metrics`: the tracer's metrics, stamped; the tracer is only read. */
  function GetSystemMetrics(tracer: EcoAgentTracer, now: string): (r: SystemMetrics)
    reads tracer
    ensures r.metrics == tracer.GetMetrics() && r.timestamp == now
    ensures r.metrics.userEngagementDays == |tracer.engagementDays|
  {
    SystemMetrics(tracer.GetMetrics(), now)
  }

  /** The default limit of `get_recent_traces`. */
  const RecentTracesLimit: int := 5

  /** `get_recent_traces(limit)`: the newest traces of the shared tracer. */
  function GetRecentTraces(tracer: EcoAgentTracer, limit: int): (r: seq<Trace>)
    reads tracer
    ensures IsSuffix(r, tracer.traces)
    ensures limit > 0 ==> |r| == if limit < |tracer.traces| then limit else |tracer.traces|
  {
    tracer.GetTraces(limit)
  }

  /** With the default limit, at most the five newest traces come back, newest last. */
  lemma DefaultRecentTraces(tracer: EcoAgentTracer)
    requires |tracer.traces| > 0
    ensures var r := GetRecentTraces(tracer, RecentTracesLimit);
      1 <= |r| <= 5 && r[|r| - 1] == tracer.traces[|tracer.traces| - 1]
  {
  }
}
