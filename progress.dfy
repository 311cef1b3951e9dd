/**
 * The progress tracker's helpers (ecoagent/progress_tracker/agent.py): the
 * progress percentage toward a goal, the milestone analysis over the
 * progress records and the motivational message.
 *
 * Numbers are reals; `round(x, 2)` is `Prelude.Round`, and `str()` of a float
 * inside an f-string is the `show` parameter.
 */
module Progress {
  import opened Prelude

  /** The dict `calculate_progress_percentage` returns. */
  datatype ProgressReport = ProgressReport(progressPercentage: real, initialValue: real, currentValue: real,
                                           targetValue: real, isReductionGoal: bool, status: string)

  /** `max(0, min(100, x))` */
  function Clamp(x: real): (r: real)
    ensures 0.0 <= r <= 100.0
    ensures 0.0 <= x <= 100.0 ==> r == x
  {
    MaxReal(0.0, MinReal(100.0, x))
  }

  /**
   * The unrounded progress. A goal is a reduction goal when the target is
   * below the initial value; the `initial == target` test inside that branch
   * can never hold, but is kept as written.
   */
  function RawProgress(initial: real, current: real, target: real): (p: real)
    ensures 0.0 <= p <= 100.0
  {
    if target < initial then
      if initial == target then 100.0
      else if current >= initial then 0.0
      else Clamp((initial - current) / (initial - target) * 100.0)
    else
      if initial == target then 100.0
      else if current <= initial then 0.0
      else Clamp((current - initial) / (target - initial) * 100.0)
  }

  /** The status is read off the unrounded progress. */
  function StatusOf(progress: real): (s: string)
    ensures s == "Achieved" <==> progress >= 100.0
    ensures s == "In Progress" <==> 0.0 < progress < 100.0
    ensures s == "Not Started" <==> progress <= 0.0
  {
    if progress >= 100.0 then "Achieved" else if progress > 0.0 then "In Progress" else "Not Started"
  }

  /** `calculate_progress_percentage` */
  function CalculateProgressPercentage(initial: real, current: real, target: real): (r: ProgressReport)
    ensures 0.0 <= r.progressPercentage <= 100.0
    ensures r.isReductionGoal <==> target < initial
    ensures r.initialValue == initial && r.currentValue == current && r.targetValue == target
  {
    var p := RawProgress(initial, current, target);
    RoundNonNegative(p, 2);
    RoundMono(p, 100.0, 2);
    RoundOfHundred();
    ProgressReport(Round(p, 2), initial, current, target, target < initial, StatusOf(p))
  }

  lemma RoundOfHundred()
    ensures Round(100.0, 2) == 100.0
  {
    assert Pow10(2) == 100.0 by {
      assert Pow10(1) == 10.0 * Pow10(0);
    }
    RoundAtDef(100.0, 100.0);
    assert FloorOf(100.0 * 100.0 + 0.5) == 10000;
  }

  /** A goal whose target equals its initial value is achieved from the start. */
  lemma EqualTargetIsAchieved(initial: real, current: real)
    ensures var r := CalculateProgressPercentage(initial, current, initial);
      r.progressPercentage == 100.0 && r.status == "Achieved" && !r.isReductionGoal
  {
    RoundOfHundred();
  }

  /** No movement past the initial value in the goal's direction is no progress at all. */
  lemma NoMovementIsNotStarted(initial: real, current: real, target: real)
    requires initial != target
    requires target < initial ==> current >= initial
    requires target > initial ==> current <= initial
    ensures var r := CalculateProgressPercentage(initial, current, target);
      r.progressPercentage == 0.0 && r.status == "Not Started"
  {
    RoundZero(2);
  }

  /** Reaching or passing the target achieves the goal, in either direction. */
  lemma ReachingTargetAchieves(initial: real, current: real, target: real)
    requires target < initial ==> current <= target
    requires target > initial ==> current >= target
    ensures var r := CalculateProgressPercentage(initial, current, target);
      r.progressPercentage == 100.0 && r.status == "Achieved"
  {
    RoundOfHundred();
    if target < initial {
      FractionBounds(initial - current, initial - target);
    } else if target > initial {
      FractionBounds(current - initial, target - initial);
    }
  }

  /** Progress made strictly inside the range is reported "In Progress". */
  lemma PartialProgressIsInProgress(initial: real, current: real, target: real)
    requires target < initial ==> target < current < initial
    requires target > initial ==> initial < current < target
    requires target != initial
    ensures CalculateProgressPercentage(initial, current, target).status == "In Progress"
  {
    if target < initial {
      FractionBounds(initial - current, initial - target);
    } else {
      FractionBounds(current - initial, target - initial);
    }
  }

  /** A part of a positive whole, as a fraction of it. */
  lemma FractionBounds(x: real, d: real)
    requires d > 0.0
    ensures x >= d ==> x / d >= 1.0
    ensures 0.0 < x < d ==> 0.0 < x / d < 1.0
  {
    var q := x / d;
    assert q * d == x;
    if x >= d && q < 1.0 {
      ScaleMono(d, q, 1.0);
    }
    if 0.0 < x < d && q >= 1.0 {
      ScaleMono(d, 1.0, q);
    }
    if 0.0 < x && q <= 0.0 {
      ScaleMono(d, q, 0.0);
    }
  }

  /**
   * The status comes from the unrounded value, so a report can show 100.0
   * percent and still say "In Progress": from 100 down toward 0, a current
   * value of 0.004 is 99.996 percent of the way.
   */
  lemma RoundedHundredStillInProgress()
    ensures var r := CalculateProgressPercentage(100.0, 0.004, 0.0);
      r.progressPercentage == 100.0 && r.status == "In Progress"
  {
    var p := RawProgress(100.0, 0.004, 0.0);
    assert p == 99.996;
    assert Pow10(2) == 100.0 by {
      assert Pow10(1) == 10.0 * Pow10(0);
    }
    RoundAtDef(p, 100.0);
    assert FloorOf(p * 100.0 + 0.5) == 10000;
  }

  // ---------------------------------------------------------------------------
  // get_milestone_status

  /** One progress record; only its "progress_percentage" is read (None when the key is missing). */
  datatype ProgressRecord = ProgressRecord(progressPercentage: Option<real>)

  /** One entry of the local milestone list. */
  datatype Milestone = Milestone(name: string, threshold: nat, achieved: bool)

  /** The dict `get_milestone_status` returns. */
  datatype MilestoneReport = MilestoneReport(achieved: seq<string>, next: seq<string>, totalProgress: real)

  /** `f"Reduce carbon footprint by {threshold}%"` */
  function ReduceName(threshold: nat): string {
    "Reduce carbon footprint by " + NatToString(threshold) + "%"
  }

  const Reduce10 := "Reduce carbon footprint by 10%"
  const Reduce25 := "Reduce carbon footprint by 25%"
  const Reduce50 := "Reduce carbon footprint by 50%"
  const Practices5 := "Complete 5 sustainable practices"
  const Months3 := "Maintain progress for 3 months"

  /** The five milestones, none achieved yet. */
  const Milestones: seq<Milestone> := [
    Milestone(Reduce10, 10, false),
    Milestone(Reduce25, 25, false),
    Milestone(Reduce50, 50, false),
    Milestone(Practices5, 5, false),
    Milestone(Months3, 3, false)
  ]

  /** The report for an empty list of records. */
  const NoDataReport := MilestoneReport([], [Reduce10], 0.0)

  /** `progress_data[-1].get("progress_percentage", 0)` */
  function Latest(data: seq<ProgressRecord>): real
    requires data != []
  {
    var last := data[|data| - 1];
    if last.progressPercentage.Some? then last.progressPercentage.value else 0.0
  }

  /** The loop's test: only a milestone named after its own threshold can be reached. */
  predicate Reached(m: Milestone, latest: real) {
    m.name == ReduceName(m.threshold) && latest >= m.threshold as real
  }

  /** A milestone after the loop has looked at it. */
  function Marked(m: Milestone, latest: real): Milestone {
    if Reached(m, latest) then m.(achieved := true) else m
  }

  /** `[m["name"] for m in ms if m["achieved"]]` */
  function AchievedNames(ms: seq<Milestone>): (r: seq<string>)
    ensures |r| <= |ms|
  {
    if ms == [] then []
    else (if ms[0].achieved then [ms[0].name] else []) + AchievedNames(ms[1..])
  }

  /** `[m["name"] for m in ms if not m["achieved"]]` */
  function PendingNames(ms: seq<Milestone>): (r: seq<string>)
    ensures |r| <= |ms|
  {
    if ms == [] then []
    else (if ms[0].achieved then [] else [ms[0].name]) + PendingNames(ms[1..])
  }

  /** The milestones after the loop, for a given latest progress. */
  function Evaluated(latest: real): (ms: seq<Milestone>)
    ensures |ms| == |Milestones|
  {
    seq(|Milestones|, j requires 0 <= j < |Milestones| => Marked(Milestones[j], latest))
  }

  /** What `get_milestone_status` returns. */
  function MilestoneStatus(data: seq<ProgressRecord>): MilestoneReport {
    if data == [] then NoDataReport
    else
      var ms := Evaluated(Latest(data));
      MilestoneReport(AchievedNames(ms), Take(PendingNames(ms), 3), Latest(data))
  }

  /** `get_milestone_status`: marks the reached milestones in place, then lists them. */
  method GetMilestoneStatus(data: seq<ProgressRecord>) returns (r: MilestoneReport)
    ensures r == MilestoneStatus(data)
  {
    if data == [] {
      return NoDataReport;
    }
    var latest := Latest(data);
    var ms := Milestones;
    var i := 0;
    while i < |ms|
      invariant 0 <= i <= |ms| == |Milestones|
      invariant forall j :: 0 <= j < i ==> ms[j] == Marked(Milestones[j], latest)
      invariant forall j :: i <= j < |ms| ==> ms[j] == Milestones[j]
    {
      if ms[i].name == ReduceName(ms[i].threshold) && latest >= ms[i].threshold as real {
        ms := ms[i := ms[i].(achieved := true)];
      }
      i := i + 1;
    }
    assert ms == Evaluated(latest);
    r := MilestoneReport(AchievedNames(ms), Take(PendingNames(ms), 3), latest);
  }

  /** Which milestone names match the f-string of their own threshold. */
  lemma ThresholdNames()
    ensures ReduceName(10) == Reduce10 && ReduceName(25) == Reduce25 && ReduceName(50) == Reduce50
    ensures ReduceName(5) != Practices5 && ReduceName(3) != Months3
  {
    assert NatToString(1) == "1" && NatToString(2) == "2" && NatToString(5) == "5";
    assert NatToString(10) == "10" && NatToString(25) == "25" && NatToString(50) == "50";
    assert ReduceName(5)[0] == 'R' != Practices5[0];
    assert ReduceName(3)[0] == 'R' != Months3[0];
  }

  /** The five names are pairwise different. */
  lemma NamesDiffer()
    ensures Reduce10 != Reduce25 && Reduce10 != Reduce50 && Reduce25 != Reduce50
    ensures Practices5 !in [Reduce10, Reduce25, Reduce50] && Months3 !in [Reduce10, Reduce25, Reduce50, Practices5]
  {
    assert Reduce10[27] == '1' && Reduce25[27] == '2' && Reduce50[27] == '5';
    assert Practices5[0] == 'C' && Months3[0] == 'M' && Reduce10[0] == 'R';
  }

  /** The milestones after the loop, written out. */
  lemma EvaluatedMilestones(latest: real)
    ensures Evaluated(latest) == [
      Milestone(Reduce10, 10, latest >= 10.0),
      Milestone(Reduce25, 25, latest >= 25.0),
      Milestone(Reduce50, 50, latest >= 50.0),
      Milestone(Practices5, 5, false),
      Milestone(Months3, 3, false)
    ]
  {
    ThresholdNames();
  }

  /** The two lists the loop's result gives, written out. */
  lemma EvaluatedNames(p: real)
    ensures AchievedNames(Evaluated(p))
      == (if p >= 10.0 then [Reduce10] else []) + (if p >= 25.0 then [Reduce25] else [])
       + (if p >= 50.0 then [Reduce50] else [])
    ensures PendingNames(Evaluated(p))
      == (if p >= 10.0 then [] else [Reduce10]) + (if p >= 25.0 then [] else [Reduce25])
       + (if p >= 50.0 then [] else [Reduce50]) + [Practices5, Months3]
  {
    EvaluatedMilestones(p);
    var a, b, c := Milestone(Reduce10, 10, p >= 10.0), Milestone(Reduce25, 25, p >= 25.0), Milestone(Reduce50, 50, p >= 50.0);
    var d, e := Milestone(Practices5, 5, false), Milestone(Months3, 3, false);
    AchievedOfFive(a, b, c, d, e);
    PendingOfFive(a, b, c, d, e);
  }

  /** The two comprehensions over a five-element list, unrolled. */
  lemma AchievedOfFive(a: Milestone, b: Milestone, c: Milestone, d: Milestone, e: Milestone)
    ensures AchievedNames([a, b, c, d, e])
      == (if a.achieved then [a.name] else []) + ((if b.achieved then [b.name] else [])
       + ((if c.achieved then [c.name] else []) + ((if d.achieved then [d.name] else [])
       + (if e.achieved then [e.name] else []))))
  {
    assert [e][1..] == [];
    assert AchievedNames([e]) == (if e.achieved then [e.name] else []) + [];
    assert [d, e][1..] == [e];
    assert AchievedNames([d, e]) == (if d.achieved then [d.name] else []) + AchievedNames([e]);
    assert [c, d, e][1..] == [d, e];
    assert AchievedNames([c, d, e]) == (if c.achieved then [c.name] else []) + AchievedNames([d, e]);
    assert [b, c, d, e][1..] == [c, d, e];
    assert AchievedNames([b, c, d, e]) == (if b.achieved then [b.name] else []) + AchievedNames([c, d, e]);
    assert [a, b, c, d, e][1..] == [b, c, d, e];
  }

  lemma PendingOfFive(a: Milestone, b: Milestone, c: Milestone, d: Milestone, e: Milestone)
    ensures PendingNames([a, b, c, d, e])
      == (if a.achieved then [] else [a.name]) + ((if b.achieved then [] else [b.name])
       + ((if c.achieved then [] else [c.name]) + ((if d.achieved then [] else [d.name])
       + (if e.achieved then [] else [e.name]))))
  {
    assert [e][1..] == [];
    assert PendingNames([e]) == (if e.achieved then [] else [e.name]) + [];
    assert [d, e][1..] == [e];
    assert PendingNames([d, e]) == (if d.achieved then [] else [d.name]) + PendingNames([e]);
    assert [c, d, e][1..] == [d, e];
    assert PendingNames([c, d, e]) == (if c.achieved then [] else [c.name]) + PendingNames([d, e]);
    assert [b, c, d, e][1..] == [c, d, e];
    assert PendingNames([b, c, d, e]) == (if b.achieved then [] else [b.name]) + PendingNames([c, d, e]);
    assert [a, b, c, d, e][1..] == [b, c, d, e];
  }

  /** The report for each range of the latest progress, written out. */
  lemma MilestonesByProgress(data: seq<ProgressRecord>)
    requires data != []
    ensures var r, p := MilestoneStatus(data), Latest(data);
      && (p >= 50.0 ==> r.achieved == [Reduce10, Reduce25, Reduce50] && r.next == [Practices5, Months3])
      && (25.0 <= p < 50.0 ==> r.achieved == [Reduce10, Reduce25] && r.next == [Reduce50, Practices5, Months3])
      && (10.0 <= p < 25.0 ==> r.achieved == [Reduce10] && r.next == [Reduce25, Reduce50, Practices5])
      && (p < 10.0 ==> r.achieved == [] && r.next == [Reduce10, Reduce25, Reduce50])
      && r.totalProgress == p
  {
    var p := Latest(data);
    EvaluatedNames(p);
    var pending := PendingNames(Evaluated(p));
    if 10.0 <= p < 25.0 {
      assert pending == [Reduce25, Reduce50, Practices5, Months3];
    } else if p < 10.0 {
      assert pending == [Reduce10, Reduce25, Reduce50, Practices5, Months3];
    }
  }

  /**
   * Only the "Reduce carbon footprint by N%" milestones can be achieved, each
   * exactly when the latest progress is at least N; the practice and month
   * milestones never are. Without records the fixed default is returned.
   */
  lemma AchievedExactly(data: seq<ProgressRecord>)
    ensures data == [] ==> MilestoneStatus(data) == NoDataReport
    ensures data != [] ==>
      var r, p := MilestoneStatus(data), Latest(data);
      && (Reduce10 in r.achieved <==> p >= 10.0)
      && (Reduce25 in r.achieved <==> p >= 25.0)
      && (Reduce50 in r.achieved <==> p >= 50.0)
      && (forall n :: n in r.achieved ==> n in [Reduce10, Reduce25, Reduce50])
      && r.totalProgress == p
  {
    if data != [] {
      MilestonesByProgress(data);
      NamesDiffer();
    }
  }

  /** At most three next milestones are listed, and none of them is achieved. */
  lemma NextAreUnachieved(data: seq<ProgressRecord>)
    ensures var r := MilestoneStatus(data);
      |r.next| <= 3 && forall n :: n in r.next ==> n !in r.achieved
  {
    if data != [] {
      MilestonesByProgress(data);
      NamesDiffer();
    }
  }

  /** A higher latest progress never loses an achieved milestone. */
  lemma AchievedGrows(data1: seq<ProgressRecord>, data2: seq<ProgressRecord>)
    requires data1 != [] && data2 != [] && Latest(data1) <= Latest(data2)
    ensures forall n :: n in MilestoneStatus(data1).achieved ==> n in MilestoneStatus(data2).achieved
  {
    AchievedExactly(data1);
    AchievedExactly(data2);
  }

  // ---------------------------------------------------------------------------
  // generate_motivational_message

  /** Which of the five messages a percentage gets: 4 at 100 and above, down to 0 below 25. */
  function Tier(p: real): (t: nat)
    ensures t <= 4
  {
    if p >= 100.0 then 4 else if p >= 75.0 then 3 else if p >= 50.0 then 2 else if p >= 25.0 then 1 else 0
  }

  /** `generate_motivational_message`; `show` renders the percentage. */
  function MotivationalMessage(userName: string, p: real, goal: string, show: real -> string): (m: string)
    ensures Tier(p) == 4 ==> "Congratulations " + userName + "!" <= m
    ensures Tier(p) == 3 ==> "Amazing progress, " + userName + "!" <= m
    ensures Tier(p) == 2 ==> "Great work, " + userName + "!" <= m
    ensures Tier(p) == 1 ==> "Good progress, " + userName + "!" <= m
    ensures Tier(p) == 0 ==> "Keep going, " + userName + "!" <= m
  {
    var t := Tier(p);
    var greeting :=
      if t == 4 then "Congratulations " + userName + "!"
      else if t == 3 then "Amazing progress, " + userName + "!"
      else if t == 2 then "Great work, " + userName + "!"
      else if t == 1 then "Good progress, " + userName + "!"
      else "Keep going, " + userName + "!";
    var rest :=
      if t == 4 then " You've achieved your goal of " + goal + ". Your dedication to sustainability is making a real impact!"
      else if t == 3 then " You're " + show(p) + "% of the way to achieving " + goal + ". You're on track for success!"
      else if t == 2 then " You're halfway to achieving " + goal + ". Your efforts are making a positive difference."
      else if t == 1 then " You're " + show(p) + "% of the way to your goal of " + goal + ". Keep up the good work!"
      else (" You're " + show(p) + "% of the way to your goal of " + goal
            + ". Every small step counts toward a more sustainable future.");
    assert greeting <= greeting + rest;
    greeting + rest
  }

  /** The tiers follow the thresholds 100, 75, 50 and 25, and more progress never drops a tier. */
  lemma TierThresholds(p: real, q: real)
    ensures Tier(p) == 4 <==> p >= 100.0
    ensures Tier(p) >= 3 <==> p >= 75.0
    ensures Tier(p) >= 2 <==> p >= 50.0
    ensures Tier(p) >= 1 <==> p >= 25.0
    ensures p <= q ==> Tier(p) <= Tier(q)
  {
  }
}
