/**
 * load_state_transitions_file (eval_utils/file_utils.py): a fold over the decoded lines that
 * keeps, per session key, the previous event (`subject_task_state`) and the record being
 * accumulated, and checks every step as it goes; after the fold, every key's last event must be
 * task_conclusion. The loop is proved against `StreamRecords` and `ValidStream`.
 */
module Transitions {
  import opened Wrappers
  import opened Json
  import opened Schema
  import opened Sessions
  import opened Lines

  /** What the loader remembers of a key's previous event: its instant, state and line number. */
  datatype Seen = Seen(time: int, state: State, line: nat)

  /** The entry remembers the instant and state of the key's last event (and the line it was read from). */
  predicate Remembers(entry: Seen, es: seq<Event>)
    requires |es| > 0
  {
    entry.time == es[|es| - 1].time && entry.state == es[|es| - 1].state
  }

  /** The checks between a key's remembered previous event and its next event pass. */
  predicate Follows(previous: Seen, e: Event) {
    InOrder(previous.time, e.time, previous.state) && EdgeRule(previous.state, e.state)
  }

  /** The record created for a key's first event, before that event is appended to it. */
  function NewSummary(e: Event): Summary {
    Summary(e.subject, e.condition, e.task, e.time, 0.0, 0.0, 0.0, [])
  }

  /** The loader's tables after reading the events `evs`: each key is in step with its own events. */
  ghost predicate Tracked(evs: seq<Event>, seen: map<string, Seen>, sums: map<string, Summary>, order: seq<string>) {
    && (forall k :: k in seen <==> k in order)
    && SeenTracked(evs, seen)
    && SumsTracked(evs, sums)
  }

  /** `subject_task_state`: each key's events so far pass the checks, and the last one is remembered. */
  ghost predicate SeenTracked(evs: seq<Event>, seen: map<string, Seen>) {
    && seen.Keys == KeysOf(evs)
    && forall k {:trigger EventsOf(evs, k)} :: k in seen ==> ValidPrefix(EventsOf(evs, k)) && Remembers(seen[k], EventsOf(evs, k))
  }

  /** Each key's record so far is the summary of its events so far. */
  ghost predicate SumsTracked(evs: seq<Event>, sums: map<string, Summary>) {
    && sums.Keys == KeysOf(evs)
    && forall k {:trigger EventsOf(evs, k)} :: k in sums ==> sums[k] == Summarize(EventsOf(evs, k))
  }

  lemma KeysOfSnoc(evs: seq<Event>, e: Event)
    ensures KeysOf(evs + [e]) == KeysOf(evs) + {e.key}
  {
  }

  lemma ValidPrefixSnoc(es: seq<Event>, e: Event)
    requires ValidPrefix(es) && StepOk(es[|es| - 1], e)
    ensures ValidPrefix(es + [e])
  {
    var s := es + [e];
    forall j | 0 < j < |s| ensures StepAt(s, j) {
      if j < |es| {
        assert s[j - 1] == es[j - 1] && s[j] == es[j];
        assert StepAt(es, j);
      } else {
        assert s[j - 1] == es[|es| - 1] && s[j] == e;
      }
    }
  }

  /** A key's session after its next accepted event: still a valid prefix, ending in that event. */
  lemma SessionSnoc(es: seq<Event>, e: Event, entry: Seen)
    requires es == [] ==> e.state == TaskInitialized
    requires es != [] ==> ValidPrefix(es) && StepOk(es[|es| - 1], e)
    requires entry.time == e.time && entry.state == e.state
    ensures ValidPrefix(es + [e]) && Remembers(entry, es + [e])
  {
    if es != [] {
      ValidPrefixSnoc(es, e);
    } else {
      assert es + [e] == [e];
    }
  }

  lemma SeenSnoc(evs: seq<Event>, seen: map<string, Seen>, e: Event, entry: Seen)
    requires SeenTracked(evs, seen)
    requires e.key in seen ==> StepOk(EventsOf(evs, e.key)[|EventsOf(evs, e.key)| - 1], e)
    requires e.key !in seen ==> e.state == TaskInitialized
    requires entry.time == e.time && entry.state == e.state
    ensures SeenTracked(evs + [e], seen[e.key := entry])
  {
    KeysOfSnoc(evs, e);
    SeenSteps(evs, seen, e, entry);
  }

  lemma SeenSteps(evs: seq<Event>, seen: map<string, Seen>, e: Event, entry: Seen)
    requires SeenTracked(evs, seen)
    requires e.key in seen ==> StepOk(EventsOf(evs, e.key)[|EventsOf(evs, e.key)| - 1], e)
    requires e.key !in seen ==> e.state == TaskInitialized
    requires entry.time == e.time && entry.state == e.state
    ensures var seen' := seen[e.key := entry];
      forall k :: k in seen' ==> ValidPrefix(EventsOf(evs + [e], k)) && Remembers(seen'[k], EventsOf(evs + [e], k))
  {
    var seen' := seen[e.key := entry];
    forall k | k in seen'
      ensures ValidPrefix(EventsOf(evs + [e], k)) && Remembers(seen'[k], EventsOf(evs + [e], k))
    {
      EventsOfSnoc(evs, e, k);
      if k == e.key {
        SessionSnoc(EventsOf(evs, k), e, entry);
      }
    }
  }

  lemma SumsSnoc(evs: seq<Event>, sums: map<string, Summary>, e: Event)
    requires SumsTracked(evs, sums)
    ensures SumsTracked(evs + [e], sums[e.key := Summarize(EventsOf(evs, e.key) + [e])])
  {
    var sums' := sums[e.key := Summarize(EventsOf(evs, e.key) + [e])];
    KeysOfSnoc(evs, e);
    forall k' | k' in sums' ensures sums'[k'] == Summarize(EventsOf(evs + [e], k')) {
      EventsOfSnoc(evs, e, k');
    }
  }

  /** Reading one more accepted event keeps the loader's tables in step with the events read. */
  lemma TrackedSnoc(evs: seq<Event>, seen: map<string, Seen>, sums: map<string, Summary>, order: seq<string>,
                    e: Event, entry: Seen)
    requires Tracked(evs, seen, sums, order)
    requires e.key in seen ==> StepOk(EventsOf(evs, e.key)[|EventsOf(evs, e.key)| - 1], e)
    requires e.key !in seen ==> e.state == TaskInitialized
    requires entry.time == e.time && entry.state == e.state
    ensures
      var k := e.key;
      Tracked(evs + [e], seen[k := entry],
              sums[k := Summarize(EventsOf(evs, k) + [e])],
              if k in seen then order else order + [k])
  {
    KeysOfSnoc(evs, e);
    SeenSnoc(evs, seen, e, entry);
    SumsSnoc(evs, sums, e);
  }

  /**
   * A key's record after one more event, as the loader's `+=` and `append` compute it from the
   * key's previous event (none for a new key, whose record starts from `NewSummary`).
   */
  function Advance(m: Summary, previous: Option<Seen>, e: Event): Summary {
    match previous
    case None => m.(transitions := m.transitions + [Object(e.obj)])
    case Some(p) =>
      var d := Elapsed(p.time, e.time);
      var m1 := m.(total := m.total + d);
      var m2 := if p.state == KmPullActivity then m1.(pull := m1.pull + d) else m1;
      var m3 := if p.state == KmPushActivity then m2.(push := m2.push + d) else m2;
      m3.(transitions := m3.transitions + [Object(e.obj)])
  }

  /** Advancing a key's summary by its next event is summarizing the longer session. */
  lemma AdvanceSummarizes(es: seq<Event>, e: Event)
    ensures es == [] ==> Advance(NewSummary(e), None, e) == Summarize(es + [e])
    ensures forall p :: es != [] && Remembers(p, es) ==> Advance(Summarize(es), Some(p), e) == Summarize(es + [e])
  {
    if es == [] {
      assert es + [e] == [e];
      SummarizeFirst(e);
    } else {
      forall p | Remembers(p, es) ensures Advance(Summarize(es), Some(p), e) == Summarize(es + [e]) {
        SummarizeSnoc(es, e);
      }
    }
  }

  /**
   * One accepted line: the tables move on to the stream with that event appended. `current` is
   * the record table as the loader holds it at that point, where a new key already has its
   * `NewSummary` entry.
   */
  lemma Accepted(evs: seq<Event>, seen: map<string, Seen>, sums: map<string, Summary>, order: seq<string>,
                 e: Event, current: map<string, Summary>, sum: Summary, entry: Seen)
    requires Tracked(evs, seen, sums, order)
    requires e.key in seen ==> Follows(seen[e.key], e)
    requires e.key !in seen ==> e.state == TaskInitialized
    requires e.key in seen ==> current == sums && sum == Advance(sums[e.key], Some(seen[e.key]), e)
    requires e.key !in seen ==> current == sums[e.key := NewSummary(e)] && sum == Advance(NewSummary(e), None, e)
    requires entry.time == e.time && entry.state == e.state
    ensures Tracked(evs + [e], seen[e.key := entry], current[e.key := sum],
                    if e.key in seen then order else order + [e.key])
  {
    var es := EventsOf(evs, e.key);
    AdvanceSummarizes(es, e);
    if e.key in seen {
      assert Remembers(seen[e.key], es);
    } else {
      assert es == [];
      assert current[e.key := sum] == sums[e.key := sum];
    }
    TrackedSnoc(evs, seen, sums, order, e, entry);
  }

  /** The first `|evs|` lines decode, in order, to the events `evs`. */
  ghost predicate Decoded(lines: seq<Value>, parse: (Value, nat) -> Result<Event, LoadError>, evs: seq<Event>) {
    |evs| <= |lines| && forall j :: 0 <= j < |evs| ==> parse(lines[j], j + 1) == Ok(evs[j])
  }

  lemma DecodedSnoc(lines: seq<Value>, parse: (Value, nat) -> Result<Event, LoadError>, evs: seq<Event>, e: Event)
    requires Decoded(lines, parse, evs) && |evs| < |lines| && parse(lines[|evs|], |evs| + 1) == Ok(e)
    ensures Decoded(lines, parse, evs + [e])
  {
    var s := evs + [e];
    forall j | 0 <= j < |s| ensures parse(lines[j], j + 1) == Ok(s[j]) {
      if j < |evs| {
        assert s[j] == evs[j];
      }
    }
  }

  /** A rejected session prefix makes the whole file rejected. */
  lemma StreamRejected(lines: seq<Value>, parse: (Value, nat) -> Result<Event, LoadError>, evs: seq<Event>, e: Event)
    requires Decoded(lines, parse, evs) && |evs| < |lines|
    requires parse(lines[|evs|], |evs| + 1) == Ok(e)
    requires !ValidPrefix(EventsOf(evs, e.key) + [e])
    ensures !(ParseAll(lines, parse).Ok? && ValidStream(ParseAll(lines, parse).value))
  {
    var r := ParseAll(lines, parse);
    if r.Ok? && ValidStream(r.value) {
      var all := r.value;
      var n := |evs| + 1;
      assert all[..n] == evs + [e];
      EventsOfSnoc(evs, e, e.key);
      assert e.key in KeysOf(all[..n]) by {
        assert all[..n][|evs|] == e;
      }
      ValidStreamPrefix(all, n, e.key);
    }
  }

  /** A step the loader rejects is a step of the key's session, so the whole file is rejected. */
  lemma Rejected(lines: seq<Value>, parse: (Value, nat) -> Result<Event, LoadError>, evs: seq<Event>,
                 seen: map<string, Seen>, sums: map<string, Summary>, order: seq<string>, e: Event)
    requires Tracked(evs, seen, sums, order)
    requires Decoded(lines, parse, evs) && |evs| < |lines|
    requires parse(lines[|evs|], |evs| + 1) == Ok(e)
    requires e.key in seen ==> !Follows(seen[e.key], e)
    requires e.key !in seen ==> e.state != TaskInitialized
    ensures !(ParseAll(lines, parse).Ok? && ValidStream(ParseAll(lines, parse).value))
  {
    var es := EventsOf(evs, e.key);
    var s := es + [e];
    if e.key in seen {
      assert Remembers(seen[e.key], es);
      assert s[|es| - 1] == es[|es| - 1] && s[|es|] == e;
      assert !StepAt(s, |es|);
    } else {
      assert es == [];
      assert s[0] == e;
    }
    StreamRejected(lines, parse, evs, e);
  }

  /** After the fold, a key's events form a session iff its last remembered state is task_conclusion. */
  lemma Concluded(evs: seq<Event>, seen: map<string, Seen>, k: string)
    requires SeenTracked(evs, seen) && k in seen
    ensures IsSession(EventsOf(evs, k)) <==> seen[k].state == TaskConclusion
  {
    var es := EventsOf(evs, k);
    assert |es| > 0;
    EndsAt(es, seen[k]);
  }

  lemma EndsAt(es: seq<Event>, entry: Seen)
    requires ValidPrefix(es) && Remembers(entry, es)
    ensures IsSession(es) <==> entry.state == TaskConclusion
  {
  }

  /** A key whose last event is not task_conclusion makes the whole file rejected. */
  lemma FinalRejected(lines: seq<Value>, parse: (Value, nat) -> Result<Event, LoadError>, evs: seq<Event>,
                      seen: map<string, Seen>, sums: map<string, Summary>, order: seq<string>, k: string)
    requires Tracked(evs, seen, sums, order)
    requires Decoded(lines, parse, evs) && |evs| == |lines|
    requires k in seen && seen[k].state != TaskConclusion
    ensures !(ParseAll(lines, parse).Ok? && ValidStream(ParseAll(lines, parse).value))
  {
    ParseAllIs(lines, parse, evs);
    Concluded(evs, seen, k);
  }

  /** Every key concluded: the file is accepted and the tables hold exactly its records. */
  lemma Finished(lines: seq<Value>, parse: (Value, nat) -> Result<Event, LoadError>, evs: seq<Event>,
                 seen: map<string, Seen>, sums: map<string, Summary>, order: seq<string>)
    requires Tracked(evs, seen, sums, order)
    requires Decoded(lines, parse, evs) && |evs| == |lines|
    requires forall a :: 0 <= a < |order| ==> order[a] in seen && seen[order[a]].state == TaskConclusion
    ensures ParseAll(lines, parse) == Ok(evs) && ValidStream(evs)
    ensures (map k | k in sums :: sums[k].Record()) == StreamRecords(evs)
  {
    ParseAllIs(lines, parse, evs);
    forall k | k in KeysOf(evs) ensures IsSession(EventsOf(evs, k)) {
      assert k in order;
      var a :| 0 <= a < |order| && order[a] == k;
      Concluded(evs, seen, k);
    }
    RecordsMatch(evs, sums);
  }

  lemma RecordsMatch(evs: seq<Event>, sums: map<string, Summary>)
    requires SumsTracked(evs, sums)
    ensures (map k | k in sums :: sums[k].Record()) == StreamRecords(evs)
  {
    var m := map k | k in sums :: sums[k].Record();
    var n := StreamRecords(evs);
    assert m.Keys == sums.Keys;
    assert n.Keys == KeysOf(evs) == sums.Keys;
    forall k | k in m ensures m[k] == n[k] {
      RecordAt(evs, sums, k);
    }
    SameMap(m, n);
  }


  lemma RecordAt(evs: seq<Event>, sums: map<string, Summary>, k: string)
    requires SumsTracked(evs, sums) && k in sums
    ensures sums[k].Record() == StreamRecords(evs)[k]
  {
    assert sums[k] == Summarize(EventsOf(evs, k));
  }

  /**
   * The checks a decoded line goes through before it is recorded: for a key already seen, the
   * ordering rule and then edge legality against the key's previous event; for a new key, the
   * initial-state rule. The first failing check names the error.
   */
  method CheckStep(seen: map<string, Seen>, e: Event, line: nat) returns (err: Option<LoadError>)
    ensures err.None? <==> if e.key in seen then Follows(seen[e.key], e) else e.state == TaskInitialized
    ensures e.key in seen && !InOrder(seen[e.key].time, e.time, seen[e.key].state) ==>
              err == Some(OutOfOrder(seen[e.key].line, line))
    ensures e.key in seen && InOrder(seen[e.key].time, e.time, seen[e.key].state) && !LegalEdge(seen[e.key].state, e.state) ==>
              err == Some(InvalidTransition(seen[e.key].line, line))
    ensures e.key !in seen && e.state != TaskInitialized ==> err == Some(InvalidInitialState(e.key, line))
  {
    var k := e.key;
    if k in seen {
      var previous := seen[k];
      if !InOrder(previous.time, e.time, previous.state) {
        return Some(OutOfOrder(previous.line, line));
      }
      LegalEdgeRule(previous.state, e.state);
      if !LegalEdge(previous.state, e.state) {
        return Some(InvalidTransition(previous.line, line));
      }
    } else if e.state != TaskInitialized {
      return Some(InvalidInitialState(k, line));
    }
    return None;
  }

  /**
   * load_state_transitions_file. It succeeds exactly when every line parses and every key's
   * events form an accepted session, and then returns one record per key, built from that key's
   * events alone.
   */
  method LoadStateTransitionsFile(lines: seq<Value>, parseTime: string -> Option<int>)
    returns (r: Result<Records, LoadError>)
    ensures r.Ok? <==> ParseAll(lines, EventParser(parseTime)).Ok? && ValidStream(ParseAll(lines, EventParser(parseTime)).value)
    ensures r.Ok? ==> r.value == StreamRecords(ParseAll(lines, EventParser(parseTime)).value)
  {
    r := FoldEvents(lines, EventParser(parseTime));
  }

  /** The loader's fold, for any decoding of a line into an event. */
  method FoldEvents(lines: seq<Value>, parse: (Value, nat) -> Result<Event, LoadError>)
    returns (r: Result<Records, LoadError>)
    ensures r.Ok? <==> ParseAll(lines, parse).Ok? && ValidStream(ParseAll(lines, parse).value)
    ensures r.Ok? ==> r.value == StreamRecords(ParseAll(lines, parse).value)
  {
    var seen: map<string, Seen> := map[];
    var sums: map<string, Summary> := map[];
    var order: seq<string> := [];
    ghost var evs: seq<Event> := [];
    var i := 0;
    while i < |lines|
      invariant i <= |lines| && |evs| == i
      invariant Decoded(lines, parse, evs)
      invariant Tracked(evs, seen, sums, order)
    {
      var parsed := parse(lines[i], i + 1);
      if parsed.Err? {
        ParseAllFails(lines, parse, i);
        return Err(parsed.error);
      }
      var e := parsed.value;
      var err := CheckStep(seen, e, i + 1);
      if err.Some? {
        Rejected(lines, parse, evs, seen, sums, order, e);
        return Err(err.value);
      }
      DecodedSnoc(lines, parse, evs, e);
      seen, sums, order := RecordEvent(seen, sums, order, e, i + 1, evs);
      evs := evs + [e];
      i := i + 1;
    }
    // Every key, in the order the records were created: its last event must be task_conclusion.
    assert forall a :: 0 <= a < |order| ==> order[a] in seen;
    var unconcluded := FirstUnconcluded(order, seen);
    if unconcluded.Some? {
      var k := unconcluded.value;
      FinalRejected(lines, parse, evs, seen, sums, order, k);
      return Err(InvalidFinalState(k, seen[k].line));
    }
    Finished(lines, parse, evs, seen, sums, order);
    return Ok(map k | k in sums :: sums[k].Record());
  }

  /**
   * The bookkeeping for a line that passed its checks: a new key gets its record and joins
   * `order`; for a known key, the time since its previous event is added to task_total_time and
   * to the total of the state being left; the line is appended to state_transitions; and the
   * event becomes the key's previous event.
   */
  method RecordEvent(seen: map<string, Seen>, sums: map<string, Summary>, order: seq<string>, e: Event, line: nat,
                     ghost evs: seq<Event>)
    returns (seen': map<string, Seen>, sums': map<string, Summary>, order': seq<string>)
    requires Tracked(evs, seen, sums, order)
    requires if e.key in seen then Follows(seen[e.key], e) else e.state == TaskInitialized
    ensures Tracked(evs + [e], seen', sums', order')
    ensures seen' == seen[e.key := Seen(e.time, e.state, line)]
  {
    var k := e.key;
    sums' := sums;
    if k !in seen {
      sums' := sums'[k := NewSummary(e)];
    }
    var sum := sums'[k];
    if k in seen {
      var previous := seen[k];
      var elapsed := Elapsed(previous.time, e.time);
      sum := sum.(total := sum.total + elapsed);
      if previous.state == KmPullActivity {
        sum := sum.(pull := sum.pull + elapsed);
      }
      if previous.state == KmPushActivity {
        sum := sum.(push := sum.push + elapsed);
      }
    }
    sum := sum.(transitions := sum.transitions + [Object(e.obj)]);
    var entry := Seen(e.time, e.state, line);
    Accepted(evs, seen, sums, order, e, sums', sum, entry);
    order' := if k in seen then order else order + [k];
    sums' := sums'[k := sum];
    seen' := seen[k := entry];
  }

  /**
   * The scan after the fold: the first key, in the order the records were created, whose last
   * event is not task_conclusion.
   */
  method FirstUnconcluded(order: seq<string>, seen: map<string, Seen>) returns (r: Option<string>)
    requires forall a :: 0 <= a < |order| ==> order[a] in seen
    ensures r.None? <==> forall a :: 0 <= a < |order| ==> seen[order[a]].state == TaskConclusion
    ensures r.Some? ==> exists a :: 0 <= a < |order| && order[a] == r.value && seen[r.value].state != TaskConclusion &&
                                    forall b :: 0 <= b < a ==> seen[order[b]].state == TaskConclusion
  {
    var j := 0;
    while j < |order|
      invariant j <= |order|
      invariant forall a :: 0 <= a < j ==> seen[order[a]].state == TaskConclusion
    {
      var k := order[j];
      if seen[k].state != TaskConclusion {
        return Some(k);
      }
      j := j + 1;
    }
    return None;
  }
}
