/**
 * The per-session view of a State-Transition file (eval_utils/file_utils.py, load_state_transitions_file):
 * which event sequences the loader accepts and which time totals it derives from them.
 * These functions are the specification the loader's loop is proved against.
 */
module Sessions {
  import opened Json
  import opened Schema

  /** One validated State-Transition line: its session key, state, parsed instant and 1-based line number. */
  datatype Event = Event(
    key: string,
    subject: Value,
    condition: Value,
    task: Value,
    state: State,
    time: int,
    line: nat,
      /** The line as stored in `state_transitions`, with `utc_timestamp` already parsed. */
    obj: JsonObject)

  /** `(t2 - t1).total_seconds()` for instants in microseconds. */
  function Elapsed(t1: int, t2: int): real {
    (t2 - t1) as real / 1000000.0
  }

  function States(es: seq<Event>): (r: seq<State>)
    ensures |r| == |es| && forall j :: 0 <= j < |es| ==> r[j] == es[j].state
  {
    seq(|es|, j requires 0 <= j < |es| => es[j].state)
  }

  /** task_total_time: every consecutive delta, added as the loader meets it. */
  function TotalTime(es: seq<Event>): real
    decreases |es|
  {
    if |es| < 2 then 0.0
    else TotalTime(es[..|es| - 1]) + Elapsed(es[|es| - 2].time, es[|es| - 1].time)
  }

  /** The deltas whose earlier event is in state `s`: time is charged to the state being left. */
  function TimeIn(es: seq<Event>, s: State): real
    decreases |es|
  {
    if |es| < 2 then 0.0
    else TimeIn(es[..|es| - 1], s) + (if es[|es| - 2].state == s then Elapsed(es[|es| - 2].time, es[|es| - 1].time) else 0.0)
  }

  /** The step out of task_initialized (zero for a session of one event). */
  function FirstDelta(es: seq<Event>): real {
    if |es| < 2 then 0.0 else Elapsed(es[0].time, es[1].time)
  }

  /** The two checks made between an event and the previous event of its session. */
  predicate StepOk(previous: Event, e: Event) {
    InOrder(previous.time, e.time, previous.state) && EdgeRule(previous.state, e.state)
  }

  /** The step into the event at index `j` passes both checks. */
  predicate StepAt(es: seq<Event>, j: int)
    requires 0 < j < |es|
  {
    StepOk(es[j - 1], es[j])
  }

  /** What the loader checks while it reads: the first state, then every step. */
  predicate ValidPrefix(es: seq<Event>) {
    && |es| > 0
    && es[0].state == TaskInitialized
    && forall j :: 0 < j < |es| ==> StepAt(es, j)
  }

  /** A session the loader accepts: a valid prefix that also ends in task_conclusion. */
  predicate IsSession(es: seq<Event>) {
    ValidPrefix(es) && es[|es| - 1].state == TaskConclusion
  }

  /** The events of one session, in file order. */
  function EventsOf(evs: seq<Event>, k: string): (r: seq<Event>)
    ensures |r| > 0 <==> k in KeysOf(evs)
    decreases |evs|
  {
    if evs == [] then []
    else
      var rest := EventsOf(evs[..|evs| - 1], k);
      if evs[|evs| - 1].key == k then rest + [evs[|evs| - 1]] else rest
  }

  /** The session keys of a stream. */
  function KeysOf(evs: seq<Event>): set<string>
    decreases |evs|
  {
    if evs == [] then {} else KeysOf(evs[..|evs| - 1]) + {evs[|evs| - 1].key}
  }

  /** Every session in the stream is accepted. */
  predicate ValidStream(evs: seq<Event>) {
    forall k :: k in KeysOf(evs) ==> IsSession(EventsOf(evs, k))
  }

  function Objects(es: seq<Event>): (r: seq<Value>)
    ensures |r| == |es| && forall j :: 0 <= j < |es| ==> r[j] == Object(es[j].obj)
  {
    seq(|es|, j requires 0 <= j < |es| => Object(es[j].obj))
  }

  /**
   * What the loader accumulates for one session key: the fields copied from its first event,
   * the three running totals and the list of its events. `Record` turns it into the JSON
   * object the loader returns.
   */
  datatype Summary = Summary(subject: Value, condition: Value, task: Value, start: int,
                             total: real, pull: real, push: real, transitions: seq<Value>)
  {
    function Record(): JsonObject {
      map[
        "subject_id" := subject,
        "condition" := condition,
        "task_id" := task,
        "task_start_time" := Time(start),
        "task_total_time" := Real(total),
        "km_pull_total_time" := Real(pull),
        "km_push_total_time" := Real(push),
        "state_transitions" := List(transitions)
      ]
    }
  }

  /** The summary of one session, computed from that session's events alone. */
  function Summarize(es: seq<Event>): Summary
    requires |es| > 0
  {
    Summary(es[0].subject, es[0].condition, es[0].task, es[0].time,
            TotalTime(es), TimeIn(es, KmPullActivity), TimeIn(es, KmPushActivity), Objects(es))
  }

  /** One record per session key of the stream. */
  function StreamRecords(evs: seq<Event>): (r: map<string, JsonObject>)
    ensures r.Keys == KeysOf(evs)
  {
    map k | k in KeysOf(evs) :: Summarize(EventsOf(evs, k)).Record()
  }

  // ---------------------------------------------------------------------------------
  // Lemmas
  // ---------------------------------------------------------------------------------

  /** Keys may interleave: each key's events are picked out of every part of the stream. */
  lemma {:induction false} EventsOfAppend(a: seq<Event>, b: seq<Event>, k: string)
    ensures EventsOf(a + b, k) == EventsOf(a, k) + EventsOf(b, k)
    decreases |b|
  {
    if b == [] {
      assert a + b == a;
    } else {
      var b' := b[..|b| - 1];
      assert (a + b)[..|a + b| - 1] == a + b';
      EventsOfAppend(a, b', k);
    }
  }

  /** Appending an event to the stream appends it to its own session and to no other. */
  lemma EventsOfSnoc(evs: seq<Event>, e: Event, k: string)
    ensures EventsOf(evs + [e], k) == EventsOf(evs, k) + (if e.key == k then [e] else [])
  {
    assert (evs + [e])[..|evs + [e]| - 1] == evs;
  }

  /**
   * Appending an event to a session, as the loader's `+=` and `append` do: the delta since the
   * previous event goes to the total, and to the pull or push total when the previous event was
   * in that state; the identity and start stay those of the first event.
   */
  lemma SummarizeSnoc(es: seq<Event>, e: Event)
    requires |es| > 0
    ensures var last := es[|es| - 1];
      var d := Elapsed(last.time, e.time);
      var m := Summarize(es);
      Summarize(es + [e]) ==
        m.(total := m.total + d,
           pull := m.pull + (if last.state == KmPullActivity then d else 0.0),
           push := m.push + (if last.state == KmPushActivity then d else 0.0),
           transitions := m.transitions + [Object(e.obj)])
  {
    var s := es + [e];
    assert s[..|s| - 1] == es;
    assert Objects(s) == Objects(es) + [Object(e.obj)];
  }

  /** A one-event session: totals at zero and the event as its only transition. */
  lemma SummarizeFirst(e: Event)
    ensures Summarize([e]) == Summary(e.subject, e.condition, e.task, e.time, 0.0, 0.0, 0.0, [Object(e.obj)])
  {
    assert Objects([e]) == [Object(e.obj)];
  }

  /** The sum of consecutive deltas telescopes to the last instant minus the first. */
  lemma {:induction false} TotalTelescopes(es: seq<Event>)
    requires |es| > 0
    ensures TotalTime(es) == Elapsed(es[0].time, es[|es| - 1].time)
    decreases |es|
  {
    if |es| >= 2 {
      TotalTelescopes(es[..|es| - 1]);
    }
  }

  /** The total is the sum of the time charged to each of the five states. */
  lemma {:induction false} TotalPartition(es: seq<Event>)
    ensures TotalTime(es) == TimeIn(es, TaskInitialized) + TimeIn(es, TaskExecution)
                           + TimeIn(es, KmPushActivity) + TimeIn(es, KmPullActivity)
                           + TimeIn(es, TaskConclusion)
    decreases |es|
  {
    if |es| >= 2 {
      TotalPartition(es[..|es| - 1]);
    }
  }

  /**
   * An accepted session is exactly one that passes the loader's checks: the first state, the
   * ordering rule and a listed edge for every consecutive pair, and the last state.
   */
  lemma SessionChecks(es: seq<Event>)
    ensures IsSession(es) <==>
              FirstStateOk(States(es)) && (forall j :: 0 < j < |es| ==> StepAt(es, j)) && LastStateOk(States(es))
    ensures forall j :: 0 < j < |es| ==>
              (StepAt(es, j) <==> InOrder(es[j - 1].time, es[j].time, es[j - 1].state) && LegalEdge(es[j - 1].state, es[j].state))
  {
    forall j | 0 < j < |es| {
      LegalEdgeRule(es[j - 1].state, es[j].state);
    }
  }

  lemma ValidPrefixShrinks(es: seq<Event>)
    requires ValidPrefix(es) && |es| >= 2
    ensures ValidPrefix(es[..|es| - 1])
  {
    ValidPrefixTake(es, |es| - 1);
  }

  lemma ValidPrefixTake(es: seq<Event>, n: nat)
    requires ValidPrefix(es) && 0 < n <= |es|
    ensures ValidPrefix(es[..n])
  {
    var s := es[..n];
    forall j | 0 < j < n ensures StepAt(s, j) {
      assert s[j - 1] == es[j - 1] && s[j] == es[j];
      assert StepAt(es, j);
    }
  }

  /** In an accepted stream, every key's events read so far form a valid prefix of its session. */
  lemma ValidStreamPrefix(evs: seq<Event>, n: nat, k: string)
    requires ValidStream(evs) && n <= |evs| && k in KeysOf(evs[..n])
    ensures ValidPrefix(EventsOf(evs[..n], k))
  {
    assert evs == evs[..n] + evs[n..];
    EventsOfAppend(evs[..n], evs[n..], k);
    var pre := EventsOf(evs[..n], k);
    ValidPrefixTake(EventsOf(evs, k), |pre|);
    assert EventsOf(evs, k)[..|pre|] == pre;
  }

  /** A state other than task_initialized is only ever left forwards in time, so its share is never negative. */
  lemma {:induction false} TimeInNonNegative(es: seq<Event>, s: State)
    requires ValidPrefix(es)
    requires s != TaskInitialized
    ensures TimeIn(es, s) >= 0.0
    decreases |es|
  {
    if |es| >= 2 {
      ValidPrefixShrinks(es);
      TimeInNonNegative(es[..|es| - 1], s);
      assert StepAt(es, |es| - 1);
    }
  }

  /** Leaving such a state takes strictly positive time, so the state's share is positive. */
  lemma TimeInPositive(es: seq<Event>, s: State)
    requires ValidPrefix(es) && |es| >= 2
    requires s != TaskInitialized && es[|es| - 2].state == s
    ensures TimeIn(es, s) > 0.0
  {
    ValidPrefixShrinks(es);
    TimeInNonNegative(es[..|es| - 1], s);
    assert StepAt(es, |es| - 1);
  }

  /** Nothing leaves task_conclusion, and nothing re-enters task_initialized. */
  lemma InitialAndTerminal(es: seq<Event>)
    requires ValidPrefix(es)
    ensures forall j :: 0 < j < |es| ==> es[j].state != TaskInitialized
    ensures forall j :: 0 <= j < |es| - 1 ==> es[j].state != TaskConclusion
  {
    forall j | 0 < j < |es| ensures es[j].state != TaskInitialized {
      assert StepAt(es, j);
    }
    forall j | 0 <= j < |es| - 1 ensures es[j].state != TaskConclusion {
      assert StepAt(es, j + 1);
    }
  }

  /** task_initialized is charged exactly the first delta, which is the only one allowed to be negative. */
  lemma {:induction false} InitialShare(es: seq<Event>)
    requires ValidPrefix(es)
    ensures TimeIn(es, TaskInitialized) == FirstDelta(es)
    ensures TimeIn(es, TaskConclusion) == 0.0
    decreases |es|
  {
    InitialAndTerminal(es);
    if |es| >= 2 {
      ValidPrefixShrinks(es);
      InitialShare(es[..|es| - 1]);
    }
  }

  /**
   * The totals of an accepted session: the total is the first delta plus three non-negative
   * shares, and the KM pull and push totals are never negative.
   */
  lemma SessionTotals(es: seq<Event>)
    requires ValidPrefix(es)
    ensures TotalTime(es) == FirstDelta(es) + TimeIn(es, TaskExecution)
                           + TimeIn(es, KmPushActivity) + TimeIn(es, KmPullActivity)
    ensures TimeIn(es, KmPullActivity) >= 0.0 && TimeIn(es, KmPushActivity) >= 0.0 && TimeIn(es, TaskExecution) >= 0.0
    ensures TotalTime(es) >= FirstDelta(es)
  {
    TotalPartition(es);
    InitialShare(es);
    TimeInNonNegative(es, TaskExecution);
    TimeInNonNegative(es, KmPushActivity);
    TimeInNonNegative(es, KmPullActivity);
  }

  // ---------------------------------------------------------------------------------
  // Concrete sessions
  // ---------------------------------------------------------------------------------

  function Ev(s: State, seconds: int): Event {
    Event("U1_prototype_Task1", Str("U1"), Str("prototype"), Str("Task1"), s, seconds * 1000000, 0, map[])
  }

  /** init at 0s, pull at 0s, execution at 30s, conclusion at 90s: total 90, pull 30, push 0. */
  lemma ScenarioA()
    ensures IsSession([Ev(TaskInitialized, 0), Ev(KmPullActivity, 0), Ev(TaskExecution, 30), Ev(TaskConclusion, 90)])
    ensures TotalTime([Ev(TaskInitialized, 0), Ev(KmPullActivity, 0), Ev(TaskExecution, 30), Ev(TaskConclusion, 90)]) == 90.0
    ensures TimeIn([Ev(TaskInitialized, 0), Ev(KmPullActivity, 0), Ev(TaskExecution, 30), Ev(TaskConclusion, 90)], KmPullActivity) == 30.0
    ensures TimeIn([Ev(TaskInitialized, 0), Ev(KmPullActivity, 0), Ev(TaskExecution, 30), Ev(TaskConclusion, 90)], KmPushActivity) == 0.0
  {
    var e0, e1, e2, e3 := Ev(TaskInitialized, 0), Ev(KmPullActivity, 0), Ev(TaskExecution, 30), Ev(TaskConclusion, 90);
    var es := [e0, e1, e2, e3];
    assert es[..3] == [e0, e1, e2];
    assert [e0, e1, e2][..2] == [e0, e1];
    assert [e0, e1][..1] == [e0];
    assert TotalTime([e0, e1]) == 0.0;
    assert TotalTime([e0, e1, e2]) == 30.0;
    assert TimeIn([e0, e1], KmPullActivity) == 0.0;
    assert TimeIn([e0, e1, e2], KmPullActivity) == 30.0;
    assert TimeIn([e0, e1], KmPushActivity) == 0.0;
    assert TimeIn([e0, e1, e2], KmPushActivity) == 0.0;
    assert StepOk(e0, e1) && StepOk(e1, e2) && StepOk(e2, e3);
    assert forall j :: 0 < j < |es| ==> StepAt(es, j);
  }

  /** A lone task_initialized is rejected (no task_conclusion); so is a session that starts elsewhere. */
  lemma BoundarySessions()
    ensures !IsSession([Ev(TaskInitialized, 0)])
    ensures !IsSession([Ev(TaskExecution, 0), Ev(TaskConclusion, 1)])
    ensures !IsSession([Ev(TaskInitialized, 0), Ev(KmPullActivity, 1), Ev(KmPullActivity, 2), Ev(TaskConclusion, 3)])
  {
    var es := [Ev(TaskInitialized, 0), Ev(KmPullActivity, 1), Ev(KmPullActivity, 2), Ev(TaskConclusion, 3)];
    assert !EdgeRule(KmPullActivity, KmPullActivity);
    assert !StepAt(es, 2);
  }

  /**
   * The ordering rule puts no bound at all on the step out of task_initialized, so a session
   * whose conclusion is stamped before its start is accepted with a negative total.
   */
  lemma BackwardsSessionAccepted()
    ensures IsSession([Ev(TaskInitialized, 100), Ev(TaskConclusion, 50)])
    ensures TotalTime([Ev(TaskInitialized, 100), Ev(TaskConclusion, 50)]) == -50.0
  {
    var e0, e1 := Ev(TaskInitialized, 100), Ev(TaskConclusion, 50);
    assert [e0, e1][..1] == [e0];
    assert TotalTime([e0]) == 0.0;
    assert Elapsed(e0.time, e1.time) == -50.0;
    assert StepOk(e0, e1);
  }
}
