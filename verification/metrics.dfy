/**
 * The evaluation metrics (eval_utils/metrics_utils.py), computed over the records
 * load_directory returns: the session-key filter, the per-condition averages and the
 * prototype-versus-baseline reductions built on them.
 *
 * A dictionary's iteration order is not part of the model: the loops visit the keys in
 * whatever order, and their sums are proved not to depend on it. `next(iter(d))`, the first
 * key in insertion order, is the parameter `first`. Python floats are `real`.
 */
module Metrics {
  import opened Wrappers
  import opened Json
  import opened Lines
  import opened Directory

  const Prototype := "prototype"
  const Baseline := "baseline"
  const TaskGrade := "task_grade"
  const TaskTotalTime := "task_total_time"
  const KmPullTotalTime := "km_pull_total_time"

  /** The exceptions the metrics raise. */
  datatype MetricError =
      /** ValueError: no record of the task under this condition. */
    | NoData(condition: string)
      /** TypeError: the first record has no `task_grade`, so the input is not Subject-Task. */
    | NotSubjectTask
      /** StopIteration: `next(iter(...))` on an empty input. */
    | EmptyInput
      /** KeyError or TypeError: a record's field is absent or not a number. */
    | BadField(key: string, field: string)
    | ZeroDivision
      /** ValueError: the summed task times are zero. */
    | ZeroTotalTime
      /** ValueError: the passing score is the empty string. */
    | BlankPassingScore

  // ---------------------------------------------------------------------------------
  // filter_jsonl_input
  // ---------------------------------------------------------------------------------

  predicate StartsWith(s: string, p: string) {
    |p| <= |s| && s[..|p|] == p
  }

  predicate EndsWith(s: string, p: string) {
    |p| <= |s| && s[|s| - |p|..] == p
  }

  /** Python's `p in s` on strings. */
  predicate Contains(s: string, p: string) {
    exists i :: 0 <= i <= |s| && StartsWith(s[i..], p)
  }

  /**
   * The test each given filter applies to a key. An argument that is "" stands for one not
   * given: the source skips a filter whose argument is falsy, and None and "" both are.
   */
  predicate Matches(key: string, subject: string, condition: string, task: string) {
    && (subject != "" ==> StartsWith(key, subject + "_"))
    && (condition != "" ==> Contains(key, "_" + condition + "_"))
    && (task != "" ==> EndsWith(key, "_" + task))
  }

  /**
   * filter_jsonl_input: the subject, condition and task comprehensions in turn. The result
   * is the sub-map of the records whose keys pass every filter given.
   */
  function FilterJsonlInput(records: Records, subject: string, condition: string, task: string): (r: Records)
    ensures forall k :: k in r <==> k in records && Matches(k, subject, condition, task)
    ensures forall k :: k in r ==> r[k] == records[k]
    ensures subject == "" && condition == "" && task == "" ==> r == records
  {
    var bySubject :=
      if subject != "" then map k | k in records && StartsWith(k, subject + "_") :: records[k] else records;
    var byCondition :=
      if condition != "" then map k | k in bySubject && Contains(k, "_" + condition + "_") :: bySubject[k]
      else bySubject;
    if task != "" then map k | k in byCondition && EndsWith(k, "_" + task) :: byCondition[k] else byCondition
  }

  /** Filtering twice gives the same result in either order. */
  lemma FilterCommutes(records: Records, s1: string, c1: string, t1: string, s2: string, c2: string, t2: string)
    ensures FilterJsonlInput(FilterJsonlInput(records, s1, c1, t1), s2, c2, t2)
         == FilterJsonlInput(FilterJsonlInput(records, s2, c2, t2), s1, c1, t1)
  {
    var a := FilterJsonlInput(FilterJsonlInput(records, s1, c1, t1), s2, c2, t2);
    var b := FilterJsonlInput(FilterJsonlInput(records, s2, c2, t2), s1, c1, t1);
    SameMap(a, b);
  }

  /** Filtering is idempotent. */
  lemma FilterIdempotent(records: Records, subject: string, condition: string, task: string)
    ensures FilterJsonlInput(FilterJsonlInput(records, subject, condition, task), subject, condition, task)
         == FilterJsonlInput(records, subject, condition, task)
  {
    var once := FilterJsonlInput(records, subject, condition, task);
    SameMap(FilterJsonlInput(once, subject, condition, task), once);
  }

  /** A key built as `f"{subject}_{condition}_{task}"` passes the filters for its own parts. */
  lemma SessionKeyMatches(subject: string, condition: string, task: string)
    ensures Matches(subject + "_" + condition + "_" + task, subject, condition, task)
  {
    var key := subject + "_" + condition + "_" + task;
    assert key[..|subject| + 1] == subject + "_";
    var infix := "_" + condition + "_";
    assert key[|subject|..][..|infix|] == infix;
    assert key[|key| - |task| - 1..] == "_" + task;
  }

  // ---------------------------------------------------------------------------------
  // Sums and means over a dictionary's records
  // ---------------------------------------------------------------------------------

  /** What one record (under its key) contributes to a sum, or the exception reading it raises. */
  type Reading = (string, JsonObject) -> Result<real, MetricError>

  /** Every key of ks is a key of m whose record reads without error. */
  predicate AllRead(m: Records, ks: set<string>, f: Reading) {
    forall k :: k in ks ==> k in m && f(k, m[k]).Ok?
  }

  /** The sum of the readings of the records under ks, taken in no particular order. */
  ghost function SumOver(m: Records, ks: set<string>, f: Reading): real
    requires AllRead(m, ks, f)
    decreases ks
  {
    if ks == {} then 0.0
    else
      var k :| k in ks;
      f(k, m[k]).value + SumOver(m, ks - {k}, f)
  }

  /** The sum does not depend on which key is taken first. */
  lemma {:induction false} SumOverPick(m: Records, ks: set<string>, f: Reading, k: string)
    requires AllRead(m, ks, f) && k in ks
    ensures SumOver(m, ks, f) == f(k, m[k]).value + SumOver(m, ks - {k}, f)
    decreases ks
  {
    var j :| j in ks && SumOver(m, ks, f) == f(j, m[j]).value + SumOver(m, ks - {j}, f);
    if j != k {
      SumOverPick(m, ks - {j}, f, k);
      SumOverPick(m, ks - {k}, f, j);
      assert ks - {j} - {k} == ks - {k} - {j};
    }
  }

  /** A loop's running total: the records under ks read without error and sum to total. */
  ghost predicate SummedSoFar(m: Records, ks: set<string>, f: Reading, total: real) {
    AllRead(m, ks, f) && total == SumOver(m, ks, f)
  }

  /** Adding one more record to a running total, as a loop does. */
  lemma SumStep(m: Records, ks: set<string>, f: Reading, total: real, k: string)
    requires SummedSoFar(m, ks, f, total) && k in m && k !in ks && f(k, m[k]).Ok?
    ensures SummedSoFar(m, ks + {k}, f, total + f(k, m[k]).value)
  {
    SumOverPick(m, ks + {k}, f, k);
    assert ks + {k} - {k} == ks;
  }

  /** n copies of c added up. */
  function Repeated(n: nat, c: real): (r: real)
    ensures r == n as real * c
  {
    if n == 0 then 0.0
    else
      OneMore((n - 1) as real, c);
      Repeated(n - 1, c) + c
  }

  /** Readings between lo and hi sum to between |ks| copies of lo and |ks| copies of hi. */
  lemma {:induction false} SumOverBounds(m: Records, ks: set<string>, f: Reading, lo: real, hi: real)
    requires AllRead(m, ks, f)
    requires forall k :: k in ks ==> lo <= f(k, m[k]).value <= hi
    ensures Repeated(|ks|, lo) <= SumOver(m, ks, f) <= Repeated(|ks|, hi)
    decreases ks
  {
    if ks != {} {
      var k :| k in ks;
      var rest := ks - {k};
      SumOverPick(m, ks, f, k);
      SumOverBounds(m, rest, f, lo, hi);
      assert |ks| == |rest| + 1;
    }
  }

  lemma OneMore(n: real, c: real)
    ensures (n + 1.0) * c == n * c + c
  {
  }

  lemma DivIs(a: real, b: real, c: real)
    requires b != 0.0 && c * b == a
    ensures a / b == c
  {
    assert (a / b) * b == a;
    assert (a / b - c) * b == 0.0;
  }

  lemma DivAtMost(p: real, b: real, c: real)
    requires b > 0.0 && p <= c * b
    ensures p / b <= c
  {
    assert (p / b) * b == p;
    assert (p / b - c) * b <= 0.0;
  }

  lemma DivAtLeast(p: real, b: real, c: real)
    requires b > 0.0 && c * b <= p
    ensures c <= p / b
  {
    assert (p / b) * b == p;
    assert (p / b - c) * b >= 0.0;
  }

  lemma DivBelow(p: real, b: real, c: real)
    requires b > 0.0 && p < c * b
    ensures p / b < c
  {
    assert (p / b) * b == p;
    assert (p / b - c) * b < 0.0;
  }

  lemma DivAbove(p: real, b: real, c: real)
    requires b > 0.0 && c * b < p
    ensures c < p / b
  {
    assert (p / b) * b == p;
    assert (p / b - c) * b > 0.0;
  }

  /** The mean of the readings under ks, or None where the source raises. */
  ghost function MeanOver(m: Records, ks: set<string>, f: Reading): Option<real> {
    if ks != {} && AllRead(m, ks, f) then Some(SumOver(m, ks, f) / |ks| as real) else None
  }

  /** The mean of all of a group's readings. */
  ghost function Mean(m: Records, f: Reading): Option<real> {
    MeanOver(m, m.Keys, f)
  }

  /** A mean lies between the least and the greatest reading. */
  lemma MeanBounds(m: Records, ks: set<string>, f: Reading, lo: real, hi: real)
    requires MeanOver(m, ks, f).Some?
    requires forall k :: k in ks ==> lo <= f(k, m[k]).value <= hi
    ensures lo <= MeanOver(m, ks, f).value <= hi
  {
    SumOverBounds(m, ks, f, lo, hi);
    var sum, n := SumOver(m, ks, f), |ks| as real;
    assert n * lo <= sum <= n * hi by {
      assert Repeated(|ks|, lo) == n * lo && Repeated(|ks|, hi) == n * hi;
    }
    DivAtLeast(sum, n, lo);
    DivAtMost(sum, n, hi);
    assert MeanOver(m, ks, f).value == sum / n;
  }

  /** `value[field]` used as a number: KeyError when absent, TypeError when not a number. */
  function NumberAt(key: string, rec: JsonObject, field: string): (r: Result<real, MetricError>)
    ensures r.Ok? <==> Total(rec, field).Some?
    ensures r.Ok? ==> r.value == Total(rec, field).value
    ensures r.Err? ==> r.error == BadField(key, field)
  {
    match Total(rec, field)
    case Some(x) => Ok(x)
    case None => Err(BadField(key, field))
  }

  /** `value["km_pull_total_time"] / value["task_total_time"]`, both fields read before dividing. */
  function KmFraction(key: string, rec: JsonObject): (r: Result<real, MetricError>)
    ensures r.Ok? <==> Total(rec, KmPullTotalTime).Some? && Total(rec, TaskTotalTime).Some?
                       && Total(rec, TaskTotalTime).value != 0.0
    ensures r.Ok? ==> r.value * Total(rec, TaskTotalTime).value == Total(rec, KmPullTotalTime).value
  {
    if KmPullTotalTime !in rec then Err(BadField(key, KmPullTotalTime))
    else if TaskTotalTime !in rec then Err(BadField(key, TaskTotalTime))
    else match (Total(rec, KmPullTotalTime), Total(rec, TaskTotalTime))
      case (Some(km), Some(total)) => if total == 0.0 then Err(ZeroDivision) else Ok(km / total)
      case (None, _) => Err(BadField(key, KmPullTotalTime))
      case (_, None) => Err(BadField(key, TaskTotalTime))
  }

  function TotalTime(key: string, rec: JsonObject): Result<real, MetricError> {
    NumberAt(key, rec, TaskTotalTime)
  }

  function Grade(key: string, rec: JsonObject): Result<real, MetricError> {
    NumberAt(key, rec, TaskGrade)
  }

  /** `value["task_total_time"] / 60`. */
  function Minutes(key: string, rec: JsonObject): (r: Result<real, MetricError>)
    ensures r.Ok? <==> TotalTime(key, rec).Ok?
    ensures r.Ok? ==> 60.0 * r.value == TotalTime(key, rec).value
  {
    match TotalTime(key, rec)
    case Ok(t) => Ok(t / 60.0)
    case Err(e) => Err(e)
  }

  /**
   * get_average_km_fraction and get_average_total_time: collect one reading per record and
   * divide their sum by their number; an empty input divides by zero.
   */
  method Average(m: Records, f: Reading) returns (r: Result<real, MetricError>)
    ensures r.Ok? <==> Mean(m, f).Some?
    ensures r.Ok? ==> r.value == Mean(m, f).value
    ensures r.Err? ==> (m.Keys == {} && r.error == ZeroDivision) || exists k :: k in m && f(k, m[k]) == Err(r.error)
  {
    var total := 0.0;
    var count := 0;
    var pending := m.Keys;
    ghost var done: set<string> := {};
    while pending != {}
      invariant done + pending == m.Keys && done !! pending
      invariant SummedSoFar(m, done, f, total) && count == |done|
      decreases pending
    {
      var k :| k in pending;
      var x := f(k, m[k]);
      if x.Err? {
        return Err(x.error);
      }
      SumStep(m, done, f, total, k);
      total := total + x.value;
      count := count + 1;
      done := done + {k};
      pending := pending - {k};
    }
    if count == 0 {
      return Err(ZeroDivision);
    }
    return Ok(total / count as real);
  }

  // ---------------------------------------------------------------------------------
  // Reductions between the prototype and the baseline
  // ---------------------------------------------------------------------------------

  /**
   * The branch shared by the KM-time and the failure-rate reductions, from a prototype
   * average p and a baseline average b: 0 when both are 0, −1 when the baseline is 0 or the
   * prototype more than doubles it, and otherwise the fraction by which p is below b.
   */
  function ProportionalReduction(p: real, b: real): real {
    if b == 0.0 && p == 0.0 then 0.0
    else if b == 0.0 || p > 2.0 * b then -1.0
    else 1.0 - p / b
  }

  /**
   * What the reduction means: with a zero baseline it is 0 exactly when the prototype is 0
   * too and −1 otherwise; with a positive baseline it is positive exactly when the prototype
   * is below it, 0 exactly when they are equal, −1 exactly from twice the baseline on, the
   * relative saving 1 − p/b below that, and never outside [−1, 1] for a non-negative p.
   */
  lemma ReductionMeaning(p: real, b: real)
    ensures var r := ProportionalReduction(p, b);
            && (b == 0.0 ==> (r == 0.0 <==> p == 0.0) && (p != 0.0 ==> r == -1.0))
            && (b > 0.0 ==> (r > 0.0 <==> p < b) && (r == 0.0 <==> p == b) && (r == -1.0 <==> p >= 2.0 * b))
            && (b > 0.0 && p <= 2.0 * b ==> r * b == b - p)
            && (b > 0.0 && p >= 0.0 ==> -1.0 <= r <= 1.0)
  {
    if b > 0.0 && p <= 2.0 * b {
      DivAtMost(p, b, 2.0);
      DivIs(b - p, b, 1.0 - p / b);
      if p < b {
        DivAtMost(p, b, 1.0);
        assert p / b != 1.0;
      } else {
        DivAtLeast(p, b, 1.0);
      }
      if p < 2.0 * b {
        assert p / b != 2.0;
      }
    }
  }

  /** A larger prototype average never gives a larger reduction. */
  lemma ReductionMonotone(p1: real, p2: real, b: real)
    requires 0.0 <= p1 <= p2 && 0.0 <= b
    ensures ProportionalReduction(p2, b) <= ProportionalReduction(p1, b)
  {
    if b > 0.0 && p2 <= 2.0 * b {
      assert p1 / b <= p2 / b;
    }
  }

  /**
   * The branch of get_prototype_time_relative_to_baseline_and_optimal, from the prototype
   * average p, the baseline average b and the optimal time: at or below the baseline, where
   * p falls between the baseline (0) and the optimal time (1); above it, the fraction by
   * which p exceeds b, negated and clamped at −1.
   */
  function RelativeTime(p: real, b: real, optimal: real): (r: Result<real, MetricError>)
    ensures r.Err? <==> (p <= b && b == optimal) || (p > b && b == 0.0)
    ensures r.Err? ==> r.error == ZeroDivision
    ensures p > b && r.Ok? ==> r.value >= -1.0
  {
    if p <= b then
      if b - optimal == 0.0 then Err(ZeroDivision)
      else Ok(1.0 - (p - optimal) / (b - optimal))
    else if b == 0.0 then Err(ZeroDivision)
    else Ok(if 1.0 - p / b >= -1.0 then 1.0 - p / b else -1.0)
  }

  /**
   * One half of the opening the time metrics share: the task's records under one condition,
   * required to be present, averaged.
   */
  method GroupMean(records: Records, condition: string, task: string, f: Reading) returns (r: Result<real, MetricError>)
    ensures FilterJsonlInput(records, "", condition, task) == map[] ==> r == Err(NoData(condition))
    ensures r.Ok? <==> Mean(FilterJsonlInput(records, "", condition, task), f).Some?
    ensures r.Ok? ==> r.value == Mean(FilterJsonlInput(records, "", condition, task), f).value
  {
    var group := FilterJsonlInput(records, "", condition, task);
    if group == map[] {
      return Err(NoData(condition));
    }
    r := Average(group, f);
  }

  /**
   * What the relative time means. At or below the baseline, the result places p on the
   * scale from the baseline (0) to the optimal time (1): it is the share of the distance from
   * the baseline to the optimum that p covers, between 0 and 1 when p lies between them, with
   * 1 exactly at the optimal time and 0 exactly at the baseline. Above a positive baseline it
   * is below 0, the fraction by which p exceeds b negated, and exactly −1 from twice the
   * baseline on.
   */
  lemma RelativeTimeMeaning(p: real, b: real, optimal: real)
    ensures p > b > 0.0 ==> RelativeTime(p, b, optimal).Ok? && RelativeTime(p, b, optimal).value < 0.0
    ensures p > b > 0.0 ==> (RelativeTime(p, b, optimal).value == -1.0 <==> p >= 2.0 * b)
    ensures b < p <= 2.0 * b ==> RelativeTime(p, b, optimal).Ok? && RelativeTime(p, b, optimal).value * b == b - p
    ensures p <= b && b != optimal ==>
              RelativeTime(p, b, optimal).Ok? && RelativeTime(p, b, optimal).value * (b - optimal) == b - p
    ensures optimal <= p <= b && optimal < b ==>
              var r := RelativeTime(p, b, optimal);
              && r.Ok? && 0.0 <= r.value <= 1.0
              && (r.value == 1.0 <==> p == optimal)
              && (r.value == 0.0 <==> p == b)
  {
    var o := optimal;
    if p > b > 0.0 {
      DivAbove(p, b, 1.0);
      if p >= 2.0 * b {
        DivAtLeast(p, b, 2.0);
      } else {
        DivBelow(p, b, 2.0);
      }
      assert (p / b) * b == p;
    }
    if p <= b && b != o {
      assert ((p - o) / (b - o)) * (b - o) == p - o;
    }
    if o <= p <= b && o < b {
      var e, d := p - o, b - o;
      DivAtMost(e, d, 1.0);
      DivAtLeast(e, d, 0.0);
      assert (e / d) * d == e;
      if p == b {
        DivIs(e, d, 1.0);
      }
    }
  }

  /** The KM-time reduction for a task, or None where the source raises. */
  ghost function KmReduction(records: Records, task: string): Option<real> {
    var proto := Mean(FilterJsonlInput(records, "", Prototype, task), KmFraction);
    var base := Mean(FilterJsonlInput(records, "", Baseline, task), KmFraction);
    if proto.Some? && base.Some? then Some(ProportionalReduction(proto.value, base.value)) else None
  }

  /** get_km_time_proportional_reduction. */
  method KmTimeProportionalReduction(records: Records, task: string) returns (r: Result<real, MetricError>)
    ensures FilterJsonlInput(records, "", Prototype, task) == map[] ==> r == Err(NoData(Prototype))
    ensures Mean(FilterJsonlInput(records, "", Prototype, task), KmFraction).Some? &&
            FilterJsonlInput(records, "", Baseline, task) == map[]
            ==> r == Err(NoData(Baseline))
    ensures r.Ok? <==> KmReduction(records, task).Some?
    ensures r.Ok? ==> r.value == KmReduction(records, task).value
  {
    var p := GroupMean(records, Prototype, task, KmFraction);
    if p.Err? {
      return Err(p.error);
    }
    var b := GroupMean(records, Baseline, task, KmFraction);
    if b.Err? {
      return Err(b.error);
    }
    return Ok(ProportionalReduction(p.value, b.value));
  }

  /** The relative-time metric for a task, or None where the source raises. */
  ghost function RelativeTimeMetric(records: Records, task: string, optimal: real): Option<real> {
    var proto := Mean(FilterJsonlInput(records, "", Prototype, task), TotalTime);
    var base := Mean(FilterJsonlInput(records, "", Baseline, task), TotalTime);
    if proto.Some? && base.Some? && RelativeTime(proto.value, base.value, optimal).Ok?
    then Some(RelativeTime(proto.value, base.value, optimal).value)
    else None
  }

  /** get_prototype_time_relative_to_baseline_and_optimal. */
  method PrototypeTimeRelativeToBaselineAndOptimal(records: Records, task: string, optimal: real)
    returns (r: Result<real, MetricError>)
    ensures FilterJsonlInput(records, "", Prototype, task) == map[] ==> r == Err(NoData(Prototype))
    ensures Mean(FilterJsonlInput(records, "", Prototype, task), TotalTime).Some? &&
            FilterJsonlInput(records, "", Baseline, task) == map[]
            ==> r == Err(NoData(Baseline))
    ensures r.Ok? <==> RelativeTimeMetric(records, task, optimal).Some?
    ensures r.Ok? ==> r.value == RelativeTimeMetric(records, task, optimal).value
  {
    var p := GroupMean(records, Prototype, task, TotalTime);
    if p.Err? {
      return Err(p.error);
    }
    var b := GroupMean(records, Baseline, task, TotalTime);
    if b.Err? {
      return Err(b.error);
    }
    r := RelativeTime(p.value, b.value, optimal);
  }

  // ---------------------------------------------------------------------------------
  // Failure rates
  // ---------------------------------------------------------------------------------

  /** The keys among ks whose records carry a grade. */
  function Graded(m: Records, ks: set<string>): (g: set<string>)
    ensures g <= ks
    ensures forall k :: k in g <==> k in ks && k in m && TaskGrade in m[k]
  {
    set k | k in ks && k in m && TaskGrade in m[k]
  }

  /** The failure-rate loop's running sum and count of the grades of the keys in done. */
  ghost predicate GradesSoFar(m: Records, done: set<string>, total: real, count: int) {
    SummedSoFar(m, Graded(m, done), Grade, total) && count == |Graded(m, done)|
  }

  lemma GradesStep(m: Records, done: set<string>, total: real, count: int, k: string)
    requires GradesSoFar(m, done, total, count) && k in m && k !in done
    requires TaskGrade in m[k] ==> Grade(k, m[k]).Ok?
    ensures TaskGrade in m[k] ==> GradesSoFar(m, done + {k}, total + Grade(k, m[k]).value, count + 1)
    ensures TaskGrade !in m[k] ==> GradesSoFar(m, done + {k}, total, count)
  {
    if TaskGrade in m[k] {
      assert Graded(m, done + {k}) == Graded(m, done) + {k};
      SumStep(m, Graded(m, done), Grade, total, k);
    } else {
      assert Graded(m, done + {k}) == Graded(m, done);
    }
  }

  /** The failure rate for a mean grade: the share of max_score not earned. */
  function FailureRateFrom(mean: real, maxScore: int): real
    requires maxScore != 0
  {
    (maxScore as real - mean) / maxScore as real
  }

  /** get_average_failure_rate, or None where it raises: 1 − (mean grade) / max_score. */
  ghost function MeanFailureRate(m: Records, maxScore: int): Option<real> {
    var mean := MeanOver(m, Graded(m, m.Keys), Grade);
    if mean.Some? && maxScore != 0 then Some(FailureRateFrom(mean.value, maxScore)) else None
  }

  /** With every grade between 0 and max_score, the failure rate is between 0 and 1. */
  lemma FailureRateBounds(m: Records, maxScore: int)
    requires MeanFailureRate(m, maxScore).Some? && maxScore > 0
    requires forall k :: k in Graded(m, m.Keys) ==> 0.0 <= Grade(k, m[k]).value <= maxScore as real
    ensures 0.0 <= MeanFailureRate(m, maxScore).value <= 1.0
  {
    MeanBounds(m, Graded(m, m.Keys), Grade, 0.0, maxScore as real);
    var mean, x := MeanOver(m, Graded(m, m.Keys), Grade).value, maxScore as real;
    DivAtMost(x - mean, x, 1.0);
    DivAtLeast(x - mean, x, 0.0);
  }

  /**
   * get_average_failure_rate: the grades of the records that have one are averaged; with
   * none, or with max_score 0, it divides by zero.
   */
  method AverageFailureRate(m: Records, maxScore: int) returns (r: Result<real, MetricError>)
    ensures r.Ok? <==> MeanFailureRate(m, maxScore).Some?
    ensures r.Ok? ==> r.value == MeanFailureRate(m, maxScore).value
    ensures r.Err? ==> r.error == ZeroDivision || exists k :: k in m && TaskGrade in m[k] && Grade(k, m[k]) == Err(r.error)
  {
    var sums := SumGrades(m);
    if sums.Err? {
      return Err(sums.error);
    }
    var (total, count) := sums.value;
    if count == 0 || maxScore == 0 {
      return Err(ZeroDivision);
    }
    var average := total / count as real;
    return Ok(FailureRateFrom(average, maxScore));
  }

  /** The loop of get_average_failure_rate: the sum and the number of the grades present. */
  method SumGrades(m: Records) returns (r: Result<(real, nat), MetricError>)
    ensures r.Ok? <==> AllRead(m, Graded(m, m.Keys), Grade)
    ensures r.Ok? ==> GradesSoFar(m, m.Keys, r.value.0, r.value.1)
    ensures r.Err? ==> exists k :: k in m && TaskGrade in m[k] && Grade(k, m[k]) == Err(r.error)
  {
    var total := 0.0;
    var count := 0;
    var pending := m.Keys;
    ghost var done: set<string> := {};
    while pending != {}
      invariant done + pending == m.Keys && done !! pending
      invariant GradesSoFar(m, done, total, count)
      decreases pending
    {
      var k :| k in pending;
      if TaskGrade in m[k] {
        var g := Grade(k, m[k]);
        if g.Err? {
          return Err(g.error);
        }
        GradesStep(m, done, total, count, k);
        total := total + g.value;
        count := count + 1;
      } else {
        GradesStep(m, done, total, count, k);
      }
      done := done + {k};
      pending := pending - {k};
    }
    assert done == m.Keys;
    return Ok((total, count));
  }

  /** The task's records under one condition, required to be present, and their failure rate. */
  method GroupFailureRate(records: Records, condition: string, task: string, maxScore: int)
    returns (r: Result<real, MetricError>)
    ensures FilterJsonlInput(records, "", condition, task) == map[] ==> r == Err(NoData(condition))
    ensures r.Ok? <==> MeanFailureRate(FilterJsonlInput(records, "", condition, task), maxScore).Some?
    ensures r.Ok? ==> r.value == MeanFailureRate(FilterJsonlInput(records, "", condition, task), maxScore).value
  {
    var group := FilterJsonlInput(records, "", condition, task);
    if group == map[] {
      return Err(NoData(condition));
    }
    r := AverageFailureRate(group, maxScore);
  }

  /** The failure-rate reduction for a task, or None where the source raises. */
  ghost function FailureRateReduction(records: Records, first: string, task: string, maxScore: int): Option<real>
    requires records != map[] ==> first in records
  {
    if records == map[] || TaskGrade !in records[first] then None
    else
      var proto := MeanFailureRate(FilterJsonlInput(records, "", Prototype, task), maxScore);
      var base := MeanFailureRate(FilterJsonlInput(records, "", Baseline, task), maxScore);
      if proto.Some? && base.Some? then Some(ProportionalReduction(proto.value, base.value)) else None
  }

  /**
   * get_proportional_task_failure_rate_reduction; `first` is the key `next(iter(...))`
   * yields, the first in insertion order.
   */
  method ProportionalTaskFailureRateReduction(records: Records, first: string, task: string, maxScore: int)
    returns (r: Result<real, MetricError>)
    requires records != map[] ==> first in records
    ensures records == map[] ==> r == Err(EmptyInput)
    ensures records != map[] && TaskGrade !in records[first] ==> r == Err(NotSubjectTask)
    ensures (records != map[] && TaskGrade in records[first] && FilterJsonlInput(records, "", Prototype, task) == map[])
            ==> r == Err(NoData(Prototype))
    ensures (records != map[] && TaskGrade in records[first] &&
             MeanFailureRate(FilterJsonlInput(records, "", Prototype, task), maxScore).Some? &&
             FilterJsonlInput(records, "", Baseline, task) == map[])
            ==> r == Err(NoData(Baseline))
    ensures r.Ok? <==> FailureRateReduction(records, first, task, maxScore).Some?
    ensures r.Ok? ==> r.value == FailureRateReduction(records, first, task, maxScore).value
  {
    if records == map[] {
      return Err(EmptyInput);
    }
    if TaskGrade !in records[first] {
      return Err(NotSubjectTask);
    }
    var p := GroupFailureRate(records, Prototype, task, maxScore);
    if p.Err? {
      return Err(p.error);
    }
    var b := GroupFailureRate(records, Baseline, task, maxScore);
    if b.Err? {
      return Err(b.error);
    }
    return Ok(ProportionalReduction(p.value, b.value));
  }

  // ---------------------------------------------------------------------------------
  // Binarised grades
  // ---------------------------------------------------------------------------------

  /** The passing score argument: the empty string, or a number. */
  datatype PassingScore = Blank | Score(x: real)

  /**
   * One record of the copy after the binarising loop: a grade becomes max_score when it is
   * at least the passing score and 0 otherwise. A passing score of 0 is falsy and leaves the
   * grade alone; comparing a grade that is not a number raises TypeError.
   */
  function BinarizedRecord(key: string, rec: JsonObject, maxScore: int, passing: real): (r: Result<JsonObject, MetricError>)
    ensures r.Ok? ==> r.value.Keys == rec.Keys && forall f :: f in rec && f != TaskGrade ==> r.value[f] == rec[f]
    ensures TaskGrade !in rec || passing == 0.0 ==> r == Ok(rec)
    ensures r.Err? <==> TaskGrade in rec && passing != 0.0 && AsNumber(rec[TaskGrade]).None?
    ensures r.Ok? && TaskGrade in rec && passing != 0.0 ==>
              && (AsNumber(rec[TaskGrade]).value >= passing ==> r.value[TaskGrade] == Int(maxScore))
              && (AsNumber(rec[TaskGrade]).value < passing ==> r.value[TaskGrade] == Int(0))
  {
    if TaskGrade in rec && passing != 0.0 then
      match AsNumber(rec[TaskGrade])
      case None => Err(BadField(key, TaskGrade))
      case Some(g) => Ok(rec[TaskGrade := if g >= passing then Int(maxScore) else Int(0)])
    else Ok(rec)
  }

  /** The binarised copy of the records, or None where binarising raises. */
  ghost function Binarized(records: Records, maxScore: int, passing: real): Option<Records> {
    if forall k :: k in records ==> BinarizedRecord(k, records[k], maxScore, passing).Ok?
    then Some(map k | k in records :: BinarizedRecord(k, records[k], maxScore, passing).value)
    else None
  }

  /**
   * The loop over the deep copy: every record of the copy is binarised in turn. The input
   * is a value, so the caller's records are untouched.
   */
  method BinarizeGrades(records: Records, maxScore: int, passing: real) returns (r: Result<Records, MetricError>)
    ensures r.Ok? <==> Binarized(records, maxScore, passing).Some?
    ensures r.Ok? ==> r.value == Binarized(records, maxScore, passing).value
    ensures r.Err? ==> exists k :: k in records && BinarizedRecord(k, records[k], maxScore, passing) == Err(r.error)
  {
    var copy := records;
    var pending := records.Keys;
    while pending != {}
      invariant pending <= records.Keys && copy.Keys == records.Keys
      invariant forall k :: k in records && k !in pending ==>
                  BinarizedRecord(k, records[k], maxScore, passing).Ok? &&
                  copy[k] == BinarizedRecord(k, records[k], maxScore, passing).value
      invariant forall k :: k in pending ==> copy[k] == records[k]
      decreases pending
    {
      var k :| k in pending;
      var b := BinarizedRecord(k, copy[k], maxScore, passing);
      if b.Err? {
        return Err(b.error);
      }
      copy := copy[k := b.value];
      pending := pending - {k};
    }
    SameMap(copy, Binarized(records, maxScore, passing).value);
    return Ok(copy);
  }

  /** The binarised failure-rate reduction for a task, or None where the source raises. */
  ghost function BinarizedFailureRateReduction(records: Records, first: string, task: string, maxScore: int, passing: real)
    : Option<real>
    requires records != map[] ==> first in records
  {
    var copy := Binarized(records, maxScore, passing);
    if copy.Some? then
      assert copy.value.Keys == records.Keys;
      FailureRateReduction(copy.value, first, task, maxScore)
    else None
  }

  /**
   * get_binarized_proportional_task_failure_rate_reduction: a blank passing score raises;
   * otherwise the failure-rate reduction of the binarised copy.
   */
  method BinarizedProportionalTaskFailureRateReduction(records: Records, first: string, task: string, maxScore: int,
                                                       passing: PassingScore)
    returns (r: Result<real, MetricError>)
    requires records != map[] ==> first in records
    ensures passing.Blank? ==> r == Err(BlankPassingScore)
    ensures passing.Score? ==> (r.Ok? <==> BinarizedFailureRateReduction(records, first, task, maxScore, passing.x).Some?)
    ensures passing.Score? && r.Ok? ==> r.value == BinarizedFailureRateReduction(records, first, task, maxScore, passing.x).value
  {
    if passing.Blank? {
      return Err(BlankPassingScore);
    }
    var copy := BinarizeGrades(records, maxScore, passing.x);
    if copy.Err? {
      return Err(copy.error);
    }
    r := ProportionalTaskFailureRateReduction(copy.value, first, task, maxScore);
  }

  /** The binarised grades under ks that reached the passing score. */
  function Passed(m: Records, ks: set<string>, maxScore: int): set<string> {
    set k | k in ks && k in m && TaskGrade in m[k] && m[k][TaskGrade] == Int(maxScore)
  }

  /** Grades that are all 0 or max_score sum to max_score times the number of passes. */
  lemma {:induction false} BinarySum(m: Records, ks: set<string>, maxScore: int)
    requires maxScore != 0 && AllRead(m, ks, Grade)
    requires forall k :: k in ks ==> TaskGrade in m[k] && (m[k][TaskGrade] == Int(maxScore) || m[k][TaskGrade] == Int(0))
    ensures SumOver(m, ks, Grade) == Repeated(|Passed(m, ks, maxScore)|, maxScore as real)
    decreases ks
  {
    if ks == {} {
      assert Passed(m, ks, maxScore) == {};
    } else {
      var k :| k in ks;
      var rest := ks - {k};
      SumOverPick(m, ks, Grade, k);
      BinarySum(m, rest, maxScore);
      BinaryContribution(m, ks, maxScore, k);
    }
  }

  lemma BinaryContribution(m: Records, ks: set<string>, maxScore: int, k: string)
    requires k in ks && k in m && TaskGrade in m[k] && Grade(k, m[k]).Ok?
    requires m[k][TaskGrade] == Int(maxScore) || m[k][TaskGrade] == Int(0)
    ensures Grade(k, m[k]).value + Repeated(|Passed(m, ks - {k}, maxScore)|, maxScore as real)
         == Repeated(|Passed(m, ks, maxScore)|, maxScore as real)
  {
    var passed := Passed(m, ks - {k}, maxScore);
    if m[k][TaskGrade] == Int(maxScore) {
      assert Passed(m, ks, maxScore) == passed + {k};
      assert |passed + {k}| == |passed| + 1;
    } else {
      assert Passed(m, ks, maxScore) == passed;
    }
  }

  /**
   * After binarising, the failure rate of a group is the share of its graded records that
   * did not reach the passing score.
   */
  lemma BinarizedFailureRate(m: Records, maxScore: int)
    requires maxScore > 0 && MeanFailureRate(m, maxScore).Some?
    requires forall k :: k in m && TaskGrade in m[k] ==> m[k][TaskGrade] == Int(maxScore) || m[k][TaskGrade] == Int(0)
    ensures var graded := Graded(m, m.Keys);
            MeanFailureRate(m, maxScore).value
              == (|graded| - |Passed(m, graded, maxScore)|) as real / |graded| as real
  {
    var graded := Graded(m, m.Keys);
    var n := |graded| as real;
    var passes := |Passed(m, graded, maxScore)| as real;
    var x := maxScore as real;
    BinarySum(m, graded, maxScore);
    assert SumOver(m, graded, Grade) == passes * x;
    assert MeanOver(m, graded, Grade).value == passes * x / n;
    ShareOfFailures(x, n, passes);
  }

  lemma ShareOfFailures(x: real, n: real, passes: real)
    requires x > 0.0 && n > 0.0
    ensures (x - passes * x / n) / x == (n - passes) / n
  {
    var q := passes / n;
    DivIs(passes, n, q);
    DivIs(passes * x, n, q * x);
    DivIs(x - q * x, x, 1.0 - q);
    DivIs(n - passes, n, 1.0 - q);
  }

  // ---------------------------------------------------------------------------------
  // Productivity
  // ---------------------------------------------------------------------------------

  /** get_productivity, or None where it raises: grade points per minute of task time. */
  ghost function PointsPerMinute(m: Records): Option<real> {
    if AllRead(m, m.Keys, Grade) && AllRead(m, m.Keys, Minutes) && SumOver(m, m.Keys, Minutes) != 0.0
    then Some(SumOver(m, m.Keys, Grade) / SumOver(m, m.Keys, Minutes))
    else None
  }

  /** p is between lo and hi times t. */
  predicate RateWithin(lo: real, hi: real, p: real, t: real) {
    lo * t <= p <= hi * t
  }

  /**
   * Summed points lie between lo and hi times the summed times when each record's points
   * do, relative to its own time.
   */
  lemma {:induction false} SumRateBounds(m: Records, ks: set<string>, points: Reading, time: Reading, lo: real, hi: real)
    requires AllRead(m, ks, points) && AllRead(m, ks, time)
    requires forall k :: k in ks ==> RateWithin(lo, hi, points(k, m[k]).value, time(k, m[k]).value)
    ensures RateWithin(lo, hi, SumOver(m, ks, points), SumOver(m, ks, time))
    decreases ks
  {
    if ks != {} {
      var k :| k in ks;
      var rest := ks - {k};
      SumOverPick(m, ks, points, k);
      SumOverPick(m, ks, time, k);
      SumRateBounds(m, rest, points, time, lo, hi);
      AddRates(lo, hi, points(k, m[k]).value, time(k, m[k]).value, SumOver(m, rest, points), SumOver(m, rest, time));
    } else {
      AddRates(lo, hi, 0.0, 0.0, 0.0, 0.0);
    }
  }

  /** Rates add up: the sums of two bounded pairs are bounded alike. */
  lemma AddRates(lo: real, hi: real, p: real, t: real, rp: real, rt: real)
    requires RateWithin(lo, hi, p, t) && RateWithin(lo, hi, rp, rt)
    ensures RateWithin(lo, hi, p + rp, t + rt)
  {
    assert lo * (t + rt) == lo * t + lo * rt;
    assert hi * (t + rt) == hi * t + hi * rt;
  }

  /** Non-negative readings have a non-negative sum. */
  lemma {:induction false} SumNonNegative(m: Records, ks: set<string>, f: Reading)
    requires AllRead(m, ks, f) && forall k :: k in ks ==> f(k, m[k]).value >= 0.0
    ensures SumOver(m, ks, f) >= 0.0
    decreases ks
  {
    if ks != {} {
      var k :| k in ks;
      SumOverPick(m, ks, f, k);
      SumNonNegative(m, ks - {k}, f);
    }
  }

  /**
   * Productivity is a rate over the whole group: when every record scores between lo and hi
   * grade points per minute of its own (non-negative) time, so does the group.
   */
  lemma ProductivityBetweenRates(m: Records, lo: real, hi: real)
    requires PointsPerMinute(m).Some?
    requires forall k :: k in m ==> Minutes(k, m[k]).Ok? && Minutes(k, m[k]).value >= 0.0
    requires forall k :: k in m ==> Grade(k, m[k]).Ok? && RateWithin(lo, hi, Grade(k, m[k]).value, Minutes(k, m[k]).value)
    ensures lo <= PointsPerMinute(m).value <= hi
  {
    SumNonNegative(m, m.Keys, Minutes);
    SumRateBounds(m, m.Keys, Grade, Minutes, lo, hi);
    var g, t := SumOver(m, m.Keys, Grade), SumOver(m, m.Keys, Minutes);
    assert t > 0.0 && PointsPerMinute(m).value == g / t;
    RateQuotient(lo, hi, g, t);
  }

  /** A pair within the rates has its quotient within them. */
  lemma RateQuotient(lo: real, hi: real, p: real, t: real)
    requires t > 0.0 && RateWithin(lo, hi, p, t)
    ensures lo <= p / t <= hi
  {
    DivAtLeast(p, t, lo);
    DivAtMost(p, t, hi);
  }

  /**
   * get_productivity: sums each record's grade and its time in minutes; a zero time sum
   * raises ValueError rather than dividing by it.
   */
  method Productivity(m: Records) returns (r: Result<real, MetricError>)
    ensures r.Ok? <==> PointsPerMinute(m).Some?
    ensures r.Ok? ==> r.value == PointsPerMinute(m).value
    ensures r.Err? ==> r.error == ZeroTotalTime || exists k :: k in m && (Grade(k, m[k]) == Err(r.error) || Minutes(k, m[k]) == Err(r.error))
    ensures r.Err? && r.error == ZeroTotalTime ==> AllRead(m, m.Keys, Grade) && AllRead(m, m.Keys, Minutes)
  {
    var scores := 0.0;
    var times := 0.0;
    var pending := m.Keys;
    ghost var done: set<string> := {};
    while pending != {}
      invariant done + pending == m.Keys && done !! pending
      invariant SummedSoFar(m, done, Grade, scores) && SummedSoFar(m, done, Minutes, times)
      decreases pending
    {
      var k :| k in pending;
      var g := Grade(k, m[k]);
      if g.Err? {
        return Err(g.error);
      }
      var t := Minutes(k, m[k]);
      if t.Err? {
        return Err(t.error);
      }
      SumStep(m, done, Grade, scores, k);
      SumStep(m, done, Minutes, times, k);
      scores := scores + g.value;
      times := times + t.value;
      done := done + {k};
      pending := pending - {k};
    }
    if times == 0.0 {
      return Err(ZeroTotalTime);
    }
    return Ok(scores / times);
  }

  /** A proportional increase, or the `float("inf")` returned when the baseline is zero. */
  datatype Increase = Finite(x: real) | PositiveInfinity

  /** The proportional increase from a baseline productivity b to a prototype productivity p. */
  function IncreaseOver(p: real, b: real): (r: Increase)
    ensures r.PositiveInfinity? <==> b == 0.0
    ensures b > 0.0 ==> (r.x > 0.0 <==> p > b) && (r.x == 0.0 <==> p == b)
    ensures b > 0.0 && p >= 0.0 ==> r.x >= -1.0
    ensures b != 0.0 ==> r.x * b == p - b
  {
    if b == 0.0 then PositiveInfinity
    else
      assert b > 0.0 && p >= 0.0 ==> (p - b) / b >= -1.0 by {
        if b > 0.0 && p >= 0.0 { DivAtLeast(p - b, b, -1.0); }
      }
      Finite((p - b) / b)
  }

  /** The task's records under one condition, required to be present, and their productivity. */
  method GroupProductivity(records: Records, condition: string, task: string) returns (r: Result<real, MetricError>)
    ensures FilterJsonlInput(records, "", condition, task) == map[] ==> r == Err(NoData(condition))
    ensures r.Ok? <==> PointsPerMinute(FilterJsonlInput(records, "", condition, task)).Some?
    ensures r.Ok? ==> r.value == PointsPerMinute(FilterJsonlInput(records, "", condition, task)).value
  {
    var group := FilterJsonlInput(records, "", condition, task);
    if group == map[] {
      return Err(NoData(condition));
    }
    r := Productivity(group);
  }

  /** The productivity increase for a task, or None where the source raises. */
  ghost function ProductivityIncrease(records: Records, first: string, task: string): Option<Increase>
    requires records != map[] ==> first in records
  {
    if records == map[] || TaskGrade !in records[first] then None
    else
      var proto := PointsPerMinute(FilterJsonlInput(records, "", Prototype, task));
      var base := PointsPerMinute(FilterJsonlInput(records, "", Baseline, task));
      if proto.Some? && base.Some? then Some(IncreaseOver(proto.value, base.value))
      else None
  }

  /** get_proportional_increase_in_productivity. */
  method ProportionalIncreaseInProductivity(records: Records, first: string, task: string)
    returns (r: Result<Increase, MetricError>)
    requires records != map[] ==> first in records
    ensures records == map[] ==> r == Err(EmptyInput)
    ensures records != map[] && TaskGrade !in records[first] ==> r == Err(NotSubjectTask)
    ensures (records != map[] && TaskGrade in records[first] && FilterJsonlInput(records, "", Prototype, task) == map[])
            ==> r == Err(NoData(Prototype))
    ensures (records != map[] && TaskGrade in records[first] &&
             PointsPerMinute(FilterJsonlInput(records, "", Prototype, task)).Some? &&
             FilterJsonlInput(records, "", Baseline, task) == map[])
            ==> r == Err(NoData(Baseline))
    ensures r.Ok? <==> ProductivityIncrease(records, first, task).Some?
    ensures r.Ok? ==> r.value == ProductivityIncrease(records, first, task).value
  {
    if records == map[] {
      return Err(EmptyInput);
    }
    if TaskGrade !in records[first] {
      return Err(NotSubjectTask);
    }
    var p := GroupProductivity(records, Prototype, task);
    if p.Err? {
      return Err(p.error);
    }
    var b := GroupProductivity(records, Baseline, task);
    if b.Err? {
      return Err(b.error);
    }
    return Ok(IncreaseOver(p.value, b.value));
  }
}
