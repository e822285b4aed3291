/**
 * Schema checks and the transition state machine (eval_utils/validate_utils.py).
 *
 * Each Python check raises on the first violation and returns nothing otherwise; here a
 * check is a predicate (or returns the offending field), and the loaders turn a failed
 * check into an error value.
 */
module Schema {
  import opened Wrappers
  import opened Json

  // ---------------------------------------------------------------------------------
  // Vocabulary
  // ---------------------------------------------------------------------------------

  const Conditions: seq<string> := ["prototype", "baseline"]

  /** `value in conditions`: only a string can equal one of the two names. */
  predicate IsCondition(v: Value) {
    v.Str? && v.s in Conditions
  }

  /** The closed vocabulary `state_ids`. */
  datatype State = TaskInitialized | TaskExecution | KmPushActivity | KmPullActivity | TaskConclusion

  function StateName(s: State): string {
    match s
    case TaskInitialized => "task_initialized"
    case TaskExecution => "task_execution"
    case KmPushActivity => "km_push_activity"
    case KmPullActivity => "km_pull_activity"
    case TaskConclusion => "task_conclusion"
  }

  const StateIds: seq<string> :=
    ["task_initialized", "task_execution", "km_push_activity", "km_pull_activity", "task_conclusion"]

  /** `value in state_ids`, giving the state the value names. */
  function StateOf(v: Value): (r: Option<State>)
    ensures r.Some? <==> (v.Str? && v.s in StateIds)
    ensures r.Some? ==> v == Str(StateName(r.value))
  {
    if v == Str("task_initialized") then Some(TaskInitialized)
    else if v == Str("task_execution") then Some(TaskExecution)
    else if v == Str("km_push_activity") then Some(KmPushActivity)
    else if v == Str("km_pull_activity") then Some(KmPullActivity)
    else if v == Str("task_conclusion") then Some(TaskConclusion)
    else None
  }

  // ---------------------------------------------------------------------------------
  // Field tables of the two record shapes
  // ---------------------------------------------------------------------------------

  /** A schema entry: a Python type (union) or, for `condition` and `state_id`, a list of names. */
  datatype FieldType = Type(t: PyType) | OneOf(names: seq<string>)

  type Schema = seq<(string, FieldType)>

  const OptionalContent := "optional_content"

  const SubjectTaskSchema: Schema := [
    ("subject_id", Type(StrOrInt)),
    ("condition", OneOf(Conditions)),
    ("task_id", Type(StrOrInt)),
    ("task_start_time", Type(DateTimeType)),
    ("task_total_time", Type(FloatOrInt)),
    ("km_pull_total_time", Type(FloatOrInt)),
    ("km_push_total_time", Type(FloatOrInt)),
    ("task_grade", Type(StrIntOrFloat)),
    ("corpus_knowledge_nugget_count", Type(IntType)),
    ("expert_captured_knowledge_nugget_count", Type(IntType)),
    ("nugget_content", Type(ListType)),
    ("task_timeout", Type(BoolType)),
    (OptionalContent, Type(DictType))
  ]

  const StateTransitionSchema: Schema := [
    ("subject_id", Type(StrOrInt)),
    ("condition", OneOf(Conditions)),
    ("task_id", Type(StrOrInt)),
    ("utc_timestamp", Type(DateTimeType)),
    ("state_id", OneOf(StateIds)),
    (OptionalContent, Type(DictType))
  ]

  /** `schema[attr]`, or None where Python's lookup raises KeyError. */
  function Lookup(schema: Schema, attr: string): (r: Option<FieldType>)
    ensures r.Some? <==> exists j :: 0 <= j < |schema| && schema[j].0 == attr
    ensures r.Some? ==> exists j :: 0 <= j < |schema| && schema[j] == (attr, r.value)
  {
    if schema == [] then None
    else if schema[0].0 == attr then Some(schema[0].1)
    else Lookup(schema[1..], attr)
  }

  /** A field every record of the shape must carry: all but `optional_content`. */
  predicate Required(schema: Schema, attr: string) {
    attr != OptionalContent && exists j :: 0 <= j < |schema| && schema[j].0 == attr
  }

  // ---------------------------------------------------------------------------------
  // Presence checks (verify_all_*_fields_present)
  // ---------------------------------------------------------------------------------

  /** The first schema field, in schema order, that is required and absent from `obj`. */
  function FirstMissing(schema: Schema, obj: JsonObject): (r: Option<string>)
    ensures r.None? <==> forall attr :: Required(schema, attr) ==> attr in obj
    ensures r.Some? ==> Required(schema, r.value) && r.value !in obj
    ensures r.Some? ==> exists j :: 0 <= j < |schema| && schema[j].0 == r.value &&
                          forall i :: 0 <= i < j && schema[i].0 != OptionalContent ==> schema[i].0 in obj
  {
    if schema == [] then None
    else if schema[0].0 !in obj && schema[0].0 != OptionalContent then Some(schema[0].0)
    else
      var r := FirstMissing(schema[1..], obj);
      assert forall attr :: Required(schema, attr) && attr != schema[0].0 ==> Required(schema[1..], attr) by {
        forall attr | Required(schema, attr) && attr != schema[0].0 ensures Required(schema[1..], attr) {
          var j :| 0 <= j < |schema| && schema[j].0 == attr;
          assert schema[1..][j - 1].0 == attr;
        }
      }
      if r.Some? then
        var j :| 0 <= j < |schema[1..]| && schema[1..][j].0 == r.value &&
                 forall i :: 0 <= i < j && schema[1..][i].0 != OptionalContent ==> schema[1..][i].0 in obj;
        assert schema[j + 1].0 == r.value;
        r
      else r
  }

  /** verify_all_subject_task_fields_present: the missing field it reports, if any. */
  function SubjectTaskMissing(obj: JsonObject): Option<string> {
    FirstMissing(SubjectTaskSchema, obj)
  }

  /** verify_all_state_transition_fields_present: the missing field it reports, if any. */
  function StateTransitionMissing(obj: JsonObject): Option<string> {
    FirstMissing(StateTransitionSchema, obj)
  }

  /** The fields a Subject-Task line must carry (every schema field but `optional_content`). */
  const SubjectTaskRequired: seq<string> := [
    "subject_id", "condition", "task_id", "task_start_time", "task_total_time",
    "km_pull_total_time", "km_push_total_time", "task_grade", "corpus_knowledge_nugget_count",
    "expert_captured_knowledge_nugget_count", "nugget_content", "task_timeout"
  ]

  /** The fields a State-Transition line must carry. */
  const StateTransitionRequired: seq<string> := ["subject_id", "condition", "task_id", "utc_timestamp", "state_id"]

  /** The Subject-Task presence check fails iff one of the twelve required fields is absent. */
  lemma SubjectTaskPresence(obj: JsonObject)
    ensures SubjectTaskMissing(obj).None? <==> forall attr :: attr in SubjectTaskRequired ==> attr in obj
    ensures SubjectTaskMissing(obj).Some? ==> SubjectTaskMissing(obj).value in SubjectTaskRequired
  {
    forall attr | Required(SubjectTaskSchema, attr) ensures attr in SubjectTaskRequired { }
    forall attr | attr in SubjectTaskRequired ensures Required(SubjectTaskSchema, attr) {
      var j :| 0 <= j < |SubjectTaskRequired| && SubjectTaskRequired[j] == attr;
      assert SubjectTaskSchema[j].0 == attr;
    }
  }

  /** After a passing Subject-Task presence check, the fields the loader reads are there. */
  lemma SubjectTaskFieldsRead(obj: JsonObject)
    requires SubjectTaskMissing(obj).None?
    ensures "subject_id" in obj && "condition" in obj && "task_id" in obj && "task_start_time" in obj
    ensures "task_total_time" in obj && "km_pull_total_time" in obj
  {
    SubjectTaskPresence(obj);
    assert SubjectTaskRequired[0] == "subject_id" && SubjectTaskRequired[1] == "condition";
    assert SubjectTaskRequired[2] == "task_id" && SubjectTaskRequired[3] == "task_start_time";
    assert SubjectTaskRequired[4] == "task_total_time" && SubjectTaskRequired[5] == "km_pull_total_time";
  }

  /** The State-Transition presence check fails iff one of the five required fields is absent. */
  lemma StateTransitionPresence(obj: JsonObject)
    ensures StateTransitionMissing(obj).None? <==> forall attr :: attr in StateTransitionRequired ==> attr in obj
    ensures StateTransitionMissing(obj).Some? ==> StateTransitionMissing(obj).value in StateTransitionRequired
  {
    forall attr | Required(StateTransitionSchema, attr) ensures attr in StateTransitionRequired { }
    forall attr | attr in StateTransitionRequired ensures Required(StateTransitionSchema, attr) {
      var j :| 0 <= j < |StateTransitionRequired| && StateTransitionRequired[j] == attr;
      assert StateTransitionSchema[j].0 == attr;
    }
  }

  /** After a passing State-Transition presence check, the fields the loader reads are there. */
  lemma StateTransitionFieldsRead(obj: JsonObject)
    requires StateTransitionMissing(obj).None?
    ensures "subject_id" in obj && "condition" in obj && "task_id" in obj && "utc_timestamp" in obj && "state_id" in obj
  {
    StateTransitionPresence(obj);
    assert StateTransitionRequired[0] == "subject_id" && StateTransitionRequired[1] == "condition";
    assert StateTransitionRequired[2] == "task_id" && StateTransitionRequired[3] == "utc_timestamp";
    assert StateTransitionRequired[4] == "state_id";
  }

  /** Extra fields never make a presence check fail. */
  lemma ExtraFieldsNeverMissing(schema: Schema, obj: JsonObject, attr: string, v: Value)
    requires FirstMissing(schema, obj).None?
    ensures FirstMissing(schema, obj[attr := v]).None?
  {
  }

  // ---------------------------------------------------------------------------------
  // Type checks (type_check_*_fields)
  // ---------------------------------------------------------------------------------

  /** One field of a Subject-Task record: `condition` by name, schema fields by type, others skipped. */
  predicate SubjectTaskFieldOk(attr: string, v: Value) {
    if attr == "condition" then IsCondition(v)
    else match Lookup(SubjectTaskSchema, attr)
      case Some(Type(t)) => IsInstance(v, t)
      case _ => true
  }

  /** type_check_subject_task_fields succeeds. */
  predicate SubjectTaskTypesOk(obj: JsonObject) {
    forall attr :: attr in obj ==> SubjectTaskFieldOk(attr, obj[attr])
  }

  /** One field of a State-Transition event: `state_id` and `condition` by name, others by type. */
  predicate StateTransitionFieldOk(attr: string, v: Value) {
    if attr == "state_id" then StateOf(v).Some?
    else if attr == "condition" then IsCondition(v)
    else match Lookup(StateTransitionSchema, attr)
      case Some(Type(t)) => IsInstance(v, t)
      case _ => true
  }

  /** type_check_state_transition_fields succeeds. */
  predicate StateTransitionTypesOk(obj: JsonObject) {
    forall attr :: attr in obj ==> StateTransitionFieldOk(attr, obj[attr])
  }

  predicate DistinctNames(schema: Schema) {
    forall i, j :: 0 <= i < j < |schema| ==> schema[i].0 != schema[j].0
  }

  /** In a table without repeated names, looking up an entry's name finds that entry. */
  lemma {:induction false} LookupFinds(schema: Schema, j: nat)
    requires DistinctNames(schema) && j < |schema|
    ensures Lookup(schema, schema[j].0) == Some(schema[j].1)
  {
    if j > 0 {
      assert schema[0].0 != schema[j].0;
      assert schema[1..][j - 1] == schema[j];
      LookupFinds(schema[1..], j - 1);
    }
  }

  /** What a passing Subject-Task type check guarantees about the fields that are present. */
  lemma SubjectTaskTypesMeaning(obj: JsonObject)
    requires SubjectTaskTypesOk(obj)
    ensures "condition" in obj ==> obj["condition"] == Str("prototype") || obj["condition"] == Str("baseline")
    ensures "subject_id" in obj ==> IsInstance(obj["subject_id"], StrOrInt)
    ensures "task_id" in obj ==> IsInstance(obj["task_id"], StrOrInt)
    ensures "task_start_time" in obj ==> obj["task_start_time"].Time?
    ensures "task_total_time" in obj ==> IsInstance(obj["task_total_time"], FloatOrInt)
    ensures "km_pull_total_time" in obj ==> IsInstance(obj["km_pull_total_time"], FloatOrInt)
    ensures "km_push_total_time" in obj ==> IsInstance(obj["km_push_total_time"], FloatOrInt)
    ensures "task_grade" in obj ==> IsInstance(obj["task_grade"], StrIntOrFloat)
    ensures "task_timeout" in obj ==> obj["task_timeout"].Bool?
    ensures OptionalContent in obj ==> obj[OptionalContent].Object?
  {
    assert "condition" in obj ==> SubjectTaskFieldOk("condition", obj["condition"]);
    SubjectTaskField(obj, 0);
    SubjectTaskField(obj, 2);
    SubjectTaskField(obj, 3);
    SubjectTaskField(obj, 4);
    SubjectTaskField(obj, 5);
    SubjectTaskField(obj, 6);
    SubjectTaskField(obj, 7);
    SubjectTaskField(obj, 11);
    SubjectTaskField(obj, 12);
  }

  lemma SubjectTaskField(obj: JsonObject, j: nat)
    requires SubjectTaskTypesOk(obj)
    requires j < |SubjectTaskSchema| && j != 1
    ensures SubjectTaskSchema[j].0 in obj ==> IsInstance(obj[SubjectTaskSchema[j].0], SubjectTaskSchema[j].1.t)
  {
    SubjectTaskNamesDistinct();
    LookupFinds(SubjectTaskSchema, j);
    var name := SubjectTaskSchema[j].0;
    assert name != SubjectTaskSchema[1].0 == "condition";
    assert name in obj ==> SubjectTaskFieldOk(name, obj[name]);
  }

  lemma SubjectTaskNamesDistinct()
    ensures DistinctNames(SubjectTaskSchema)
  {
    forall i, j | 0 <= i < j < |SubjectTaskSchema| ensures SubjectTaskSchema[i].0 != SubjectTaskSchema[j].0 {
      var a, b := SubjectTaskSchema[i].0, SubjectTaskSchema[j].0;
      assert |a| != |b| || a[|a| - 1] != b[|b| - 1] || a[0] != b[0] || a[1] != b[1] || a[5] != b[5];
    }
  }

  /** A bad `condition`, or a schema field of the wrong type, fails the Subject-Task check. */
  lemma SubjectTaskTypesReject(obj: JsonObject, j: nat)
    requires j < |SubjectTaskSchema|
    requires SubjectTaskSchema[j].0 in obj
    requires if j == 1 then !IsCondition(obj["condition"])
             else !IsInstance(obj[SubjectTaskSchema[j].0], SubjectTaskSchema[j].1.t)
    ensures !SubjectTaskTypesOk(obj)
  {
    SubjectTaskNamesDistinct();
    LookupFinds(SubjectTaskSchema, j);
    var name := SubjectTaskSchema[j].0;
    assert j != 1 ==> name != SubjectTaskSchema[1].0 == "condition";
    assert !SubjectTaskFieldOk(name, obj[name]);
  }

  /** A field outside the schema is skipped: adding it, with any value, keeps a passing check passing. */
  lemma SubjectTaskUnknownFieldSkipped(obj: JsonObject, attr: string, v: Value)
    requires SubjectTaskTypesOk(obj)
    requires Lookup(SubjectTaskSchema, attr).None?
    ensures SubjectTaskTypesOk(obj[attr := v])
  {
  }

  /** What a passing State-Transition type check guarantees. */
  lemma StateTransitionTypesMeaning(obj: JsonObject)
    requires StateTransitionTypesOk(obj)
    ensures "state_id" in obj ==> obj["state_id"].Str? && obj["state_id"].s in StateIds
    ensures "condition" in obj ==> obj["condition"] == Str("prototype") || obj["condition"] == Str("baseline")
    ensures "subject_id" in obj ==> IsInstance(obj["subject_id"], StrOrInt)
    ensures "task_id" in obj ==> IsInstance(obj["task_id"], StrOrInt)
    ensures "utc_timestamp" in obj ==> obj["utc_timestamp"].Time?
    ensures OptionalContent in obj ==> obj[OptionalContent].Object?
  {
    assert "state_id" in obj ==> StateTransitionFieldOk("state_id", obj["state_id"]);
    assert "condition" in obj ==> StateTransitionFieldOk("condition", obj["condition"]);
    StateTransitionField(obj, 0);
    StateTransitionField(obj, 2);
    StateTransitionField(obj, 3);
    StateTransitionField(obj, 5);
  }

  lemma StateTransitionField(obj: JsonObject, j: nat)
    requires StateTransitionTypesOk(obj)
    requires j < |StateTransitionSchema| && j != 1 && j != 4
    ensures StateTransitionSchema[j].0 in obj ==> IsInstance(obj[StateTransitionSchema[j].0], StateTransitionSchema[j].1.t)
  {
    StateTransitionNamesDistinct();
    LookupFinds(StateTransitionSchema, j);
    assert StateTransitionSchema[j].0 in obj ==> StateTransitionFieldOk(StateTransitionSchema[j].0, obj[StateTransitionSchema[j].0]);
  }

  lemma StateTransitionNamesDistinct()
    ensures DistinctNames(StateTransitionSchema)
  {
    forall i, j | 0 <= i < j < |StateTransitionSchema| ensures StateTransitionSchema[i].0 != StateTransitionSchema[j].0 {
      var a, b := StateTransitionSchema[i].0, StateTransitionSchema[j].0;
      assert |a| != |b|;
    }
  }

  /** A `state_id` outside the five names fails the State-Transition check. */
  lemma StateTransitionRejectsUnknownState(obj: JsonObject)
    requires "state_id" in obj && !(obj["state_id"].Str? && obj["state_id"].s in StateIds)
    ensures !StateTransitionTypesOk(obj)
  {
    assert !StateTransitionFieldOk("state_id", obj["state_id"]);
  }

  /** A field outside the State-Transition schema is skipped. */
  lemma StateTransitionUnknownFieldSkipped(obj: JsonObject, attr: string, v: Value)
    requires StateTransitionTypesOk(obj)
    requires Lookup(StateTransitionSchema, attr).None?
    ensures StateTransitionTypesOk(obj[attr := v])
  {
    assert StateTransitionSchema[1].0 == "condition" && StateTransitionSchema[4].0 == "state_id";
  }

  // ---------------------------------------------------------------------------------
  // The transition state machine
  // ---------------------------------------------------------------------------------

  /** valid_state_transitions, in the order of the source table. */
  const ValidStateTransitions: seq<(State, State)> := [
    (TaskInitialized, TaskExecution),
    (TaskInitialized, KmPullActivity),
    (TaskInitialized, KmPushActivity),
    (TaskInitialized, TaskConclusion),
    (TaskExecution, TaskExecution),
    (TaskExecution, KmPushActivity),
    (KmPushActivity, TaskExecution),
    (KmPushActivity, KmPullActivity),
    (KmPushActivity, TaskConclusion),
    (KmPullActivity, KmPushActivity),
    (KmPullActivity, TaskExecution),
    (KmPullActivity, TaskConclusion),
    (TaskExecution, KmPullActivity),
    (TaskExecution, TaskConclusion)
  ]

  /** verify_state_transition_valid succeeds. */
  predicate LegalEdge(from: State, to: State) {
    (from, to) in ValidStateTransitions
  }

  /**
   * The table in closed form: nothing leaves task_conclusion, nothing enters task_initialized,
   * and task_execution is the only state that may follow itself.
   */
  predicate EdgeRule(from: State, to: State) {
    from != TaskConclusion && to != TaskInitialized && (from == to ==> from == TaskExecution)
  }

  /** The fourteen listed edges are exactly the pairs the closed form allows. */
  lemma LegalEdgeRule(from: State, to: State)
    ensures LegalEdge(from, to) <==> EdgeRule(from, to)
  {
  }

  /** The edge table lists fourteen edges, none twice. */
  lemma EdgesDistinct()
    ensures |ValidStateTransitions| == 14
    ensures forall i, j :: 0 <= i < j < |ValidStateTransitions| ==> ValidStateTransitions[i] != ValidStateTransitions[j]
  {
  }

  /** The shape of the machine: one self-loop, a terminal state, an initial state. */
  lemma EdgeShape(a: State, b: State)
    ensures LegalEdge(a, a) <==> a == TaskExecution
    ensures !LegalEdge(TaskConclusion, b)
    ensures !LegalEdge(a, TaskInitialized)
    ensures a != TaskConclusion ==> LegalEdge(a, TaskConclusion)
  {
    LegalEdgeRule(a, a);
    LegalEdgeRule(TaskConclusion, b);
    LegalEdgeRule(a, TaskInitialized);
    LegalEdgeRule(a, TaskConclusion);
  }

  /** verify_timestamps_inorder succeeds: it only rejects `t1 >= t2` after a state other than task_initialized. */
  predicate InOrder(t1: int, t2: int, previous: State) {
    !(t1 >= t2 && previous != TaskInitialized)
  }

  lemma OrderingRule(t1: int, t2: int, previous: State)
    ensures InOrder(t1, t2, previous) <==> (previous == TaskInitialized || t1 < t2)
    ensures previous == TaskInitialized ==> InOrder(t1, t2, previous)
  {
  }

  /** verify_first_state_is_task_initialized succeeds on the list it is given. */
  predicate FirstStateOk(states: seq<State>) {
    |states| > 0 && states[0] == TaskInitialized
  }

  /** verify_last_state_is_task_conclusion succeeds on the list it is given. */
  predicate LastStateOk(states: seq<State>) {
    |states| > 0 && states[|states| - 1] == TaskConclusion
  }

  // ---------------------------------------------------------------------------------
  // task_metadata.csv
  // ---------------------------------------------------------------------------------

  const RequiredColumns: set<string> := {"task_id", "task_optimal_time_in_seconds", "task_maximum_score"}
  const OptionalColumns: set<string> := {"task_passing_score"}

  datatype ColumnError = MissingColumns(missing: set<string>) | ExtraColumns(extra: set<string>)

  /** The column set the header names: order and repetitions do not matter. */
  function ColumnSet(header: seq<string>): set<string> {
    set c | c in header
  }

  predicate Distinct(s: seq<string>) {
    forall a, b :: 0 <= a < b < |s| ==> s[a] != s[b]
  }

  /** `list.remove` of the element at `i` of a list without repetitions. */
  lemma RemovedAt(before: seq<string>, i: nat)
    requires i < |before| && Distinct(before)
    ensures var after := before[..i] + before[i + 1..];
      && ColumnSet(after) == ColumnSet(before) - {before[i]}
      && Distinct(after)
      && (forall a :: 0 <= a < i ==> after[a] == before[a])
      && (i < |after| ==> after[i] == before[i + 1] != before[i])
  {
    var after := before[..i] + before[i + 1..];
    assert forall a :: i <= a < |after| ==> after[a] == before[a + 1];
    assert forall a :: 0 <= a < i ==> after[a] == before[a];
    forall c | c in before && c != before[i] ensures c in after {
      var a :| 0 <= a < |before| && before[a] == c;
      if a < i { assert after[a] == c; } else { assert after[a - 1] == c; }
    }
  }

  /**
   * verify_column_names. It lists the extra columns (in an order the model leaves open, as
   * `list(set(...))` does), then removes the optional ones while iterating over that same list.
   */
  method VerifyColumnNames(header: seq<string>) returns (r: Option<ColumnError>)
    ensures r.None? <==> RequiredColumns <= ColumnSet(header) && ColumnSet(header) <= RequiredColumns + OptionalColumns
    ensures r.Some? && r.value.MissingColumns? ==> r.value.missing == RequiredColumns - ColumnSet(header) != {}
    ensures r.Some? && r.value.ExtraColumns? ==>
              RequiredColumns <= ColumnSet(header) &&
              r.value.extra == ColumnSet(header) - RequiredColumns - OptionalColumns != {}
  {
    var missing := RequiredColumns - ColumnSet(header);
    // Collect the header names that are not required, one at a time.
    var pending := ColumnSet(header) - RequiredColumns;
    var extra: seq<string> := [];
    while pending != {}
      invariant ColumnSet(extra) + pending == ColumnSet(header) - RequiredColumns
      invariant forall c :: c in extra ==> c !in pending
      invariant Distinct(extra)
      decreases pending
    {
      var c :| c in pending;
      extra := extra + [c];
      pending := pending - {c};
    }
    // Drop the optional names while walking that same list.
    // Removing during iteration skips the element that moves into the freed slot; since the
    // list has no repetitions and there is one optional name, the skipped one is never optional.
    ghost var listed := ColumnSet(extra);
    var i := 0;
    while i < |extra|
      invariant 0 <= i <= |extra| + 1
      invariant Distinct(extra)
      invariant forall a :: 0 <= a < i && a < |extra| ==> extra[a] !in OptionalColumns
      invariant ColumnSet(extra) <= listed
      invariant ColumnSet(extra) - OptionalColumns == listed - OptionalColumns
    {
      if extra[i] in OptionalColumns {
        RemovedAt(extra, i);
        extra := extra[..i] + extra[i + 1..];
      }
      i := i + 1;
    }
    assert forall c :: c in extra ==> c !in OptionalColumns;
    assert ColumnSet(extra) == listed - OptionalColumns;
    if missing != {} {
      return Some(MissingColumns(missing));
    }
    if extra != [] {
      assert extra[0] in ColumnSet(extra);
      return Some(ExtraColumns(ColumnSet(extra)));
    }
    return None;
  }

  /**
   * verify_row_types: converts, in place, `row[1]` with `float`, `row[2]` with `int` and, when
   * it is present and non-empty, `row[3]` with `float`. The string conversions are parameters.
   * Returns false where Python raises (a conversion fails, or the row is too short to index).
   */
  method VerifyRowTypes(row: array<Value>, parseFloat: string -> Option<real>, parseInt: string -> Option<int>)
    returns (ok: bool)
    requires forall j :: 0 <= j < row.Length ==> row[j].Str?
    modifies row
    ensures ok <==> ConvertedRow(old(row[..]), parseFloat, parseInt).Some?
    ensures ok ==> row[..] == ConvertedRow(old(row[..]), parseFloat, parseInt).value
  {
    if row.Length < 2 { return false; }
    var optimal := parseFloat(row[1].s);
    if optimal.None? { return false; }
    row[1] := Real(optimal.value);
    if row.Length < 3 { return false; }
    var maximum := parseInt(row[2].s);
    if maximum.None? { return false; }
    row[2] := Int(maximum.value);
    if row.Length > 3 && row[3].s != "" {
      var passing := parseFloat(row[3].s);
      if passing.None? { return false; }
      row[3] := Real(passing.value);
    }
    return true;
  }

  /** The row VerifyRowTypes leaves behind, or None where it raises. */
  function ConvertedRow(row: seq<Value>, parseFloat: string -> Option<real>, parseInt: string -> Option<int>)
    : (r: Option<seq<Value>>)
    requires forall j :: 0 <= j < |row| ==> row[j].Str?
    ensures r.Some? <==> |row| >= 3 && parseFloat(row[1].s).Some? && parseInt(row[2].s).Some? &&
                         (|row| > 3 && row[3].s != "" ==> parseFloat(row[3].s).Some?)
    ensures r.Some? ==> |r.value| == |row| && r.value[0] == row[0]
    ensures r.Some? ==> r.value[1] == Real(parseFloat(row[1].s).value) && r.value[2] == Int(parseInt(row[2].s).value)
    ensures r.Some? && |row| > 3 ==>
              if row[3].s == "" then r.value[3] == Str("") else r.value[3] == Real(parseFloat(row[3].s).value)
    ensures r.Some? ==> forall j :: 4 <= j < |row| ==> r.value[j] == row[j]
  {
    if |row| < 3 then None
    else
      var optimal := parseFloat(row[1].s);
      var maximum := parseInt(row[2].s);
      if optimal.None? || maximum.None? then None
      else if |row| > 3 && row[3].s != "" then
        var passing := parseFloat(row[3].s);
        if passing.None? then None
        else Some(row[..1] + [Real(optimal.value), Int(maximum.value), Real(passing.value)] + row[4..])
      else Some(row[..1] + [Real(optimal.value), Int(maximum.value)] + row[3..])
  }
}
