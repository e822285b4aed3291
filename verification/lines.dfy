/**
 * The line-level part of the JSONL loaders (eval_utils/file_utils.py): the errors they raise,
 * the checks one decoded line goes through, and reading a whole file line by line.
 *
 * A JSONL file is given as its lines already decoded by `json.loads`, and
 * `iso_str_as_datetime` is the parameter `parseTime`, a partial parse to an instant in
 * microseconds.
 */
module Lines {
  import opened Wrappers
  import opened Json
  import opened Schema
  import opened Sessions

  /** The exceptions the loaders raise, one constructor per distinct check. */
  datatype LoadError =
    | NotAnObject(line: nat)
    | MissingAttribute(attr: string, line: nat)
    | BadTimestamp(line: nat)
    | WrongType(line: nat)
    | OutOfOrder(earlier: nat, later: nat)
    | InvalidTransition(earlier: nat, later: nat)
    | InvalidInitialState(key: string, line: nat)
    | InvalidFinalState(key: string, line: nat)
    | EmptyFile
    | UnrecognizedFormat(subjectTaskMissing: string, stateTransitionMissing: string)
    | BadColumns(columns: ColumnError)
    | BadRow(row: nat)
    | RowLongerThanHeader(row: nat)
    | ConflictingRecords(key: string, recordedFile: Value, newFile: string, bothTransitions: bool)
    | BadTotals(key: string, newFile: string)

  /** A loaded file: one record per session key (or per task id for the CSV file). */
  type Records = map<string, JsonObject>

  /** `iso_str_as_datetime` applied to a field: only a string can parse. */
  function Stamp(v: Value, parseTime: string -> Option<int>): Option<int> {
    if v.Str? then parseTime(v.s) else None
  }

  /** A State-Transition line through the presence check, the timestamp parse and the type check. */
  function ParseEvent(v: Value, line: nat, parseTime: string -> Option<int>): (r: Result<Event, LoadError>)
    ensures r.Ok? ==> r.value.line == line
  {
    if !v.Object? then Err(NotAnObject(line))
    else
      var obj := v.fields;
      match StateTransitionMissing(obj)
      case Some(attr) => Err(MissingAttribute(attr, line))
      case None =>
        StateTransitionFieldsRead(obj);
        match Stamp(obj["utc_timestamp"], parseTime)
        case None => Err(BadTimestamp(line))
        case Some(t) =>
          var o := obj["utc_timestamp" := Time(t)];
          if !StateTransitionTypesOk(o) then Err(WrongType(line))
          else
            StateTransitionTypesMeaning(o);
            var state := StateOf(o["state_id"]).value;
            Ok(Event(SessionKey(o["subject_id"], o["condition"], o["task_id"]),
                     o["subject_id"], o["condition"], o["task_id"], state, t, line, o))
  }

  /** Which check rejects a State-Transition line, in the order the loader runs them. */
  lemma ParseEventErrors(v: Value, line: nat, parseTime: string -> Option<int>)
    ensures !v.Object? ==> ParseEvent(v, line, parseTime) == Err(NotAnObject(line))
    ensures v.Object? && StateTransitionMissing(v.fields).Some? ==>
              ParseEvent(v, line, parseTime) == Err(MissingAttribute(StateTransitionMissing(v.fields).value, line))
    ensures v.Object? && StateTransitionMissing(v.fields).None? ==>
              && "utc_timestamp" in v.fields
              && (Stamp(v.fields["utc_timestamp"], parseTime).None? ==> ParseEvent(v, line, parseTime) == Err(BadTimestamp(line)))
              && (Stamp(v.fields["utc_timestamp"], parseTime).Some? ==>
                    var o := v.fields["utc_timestamp" := Time(Stamp(v.fields["utc_timestamp"], parseTime).value)];
                    ParseEvent(v, line, parseTime).Ok? <==> StateTransitionTypesOk(o))
  {
    if v.Object? && StateTransitionMissing(v.fields).None? {
      StateTransitionFieldsRead(v.fields);
    }
  }

  /** What an accepted State-Transition line guarantees about the event it yields. */
  lemma ParseEventOk(v: Value, line: nat, parseTime: string -> Option<int>)
    requires ParseEvent(v, line, parseTime).Ok?
    ensures v.Object? && StateTransitionMissing(v.fields).None?
    ensures "subject_id" in v.fields && "condition" in v.fields && "task_id" in v.fields
    ensures "utc_timestamp" in v.fields && "state_id" in v.fields
    ensures var e := ParseEvent(v, line, parseTime).value;
      && Stamp(v.fields["utc_timestamp"], parseTime) == Some(e.time)
      && e.obj == v.fields["utc_timestamp" := Time(e.time)] && StateTransitionTypesOk(e.obj)
      && v.fields["state_id"] == Str(StateName(e.state))
      && e.subject == v.fields["subject_id"] && IsInstance(e.subject, StrOrInt)
      && e.condition == v.fields["condition"] && IsCondition(e.condition)
      && e.task == v.fields["task_id"] && IsInstance(e.task, StrOrInt)
      && e.key == SessionKey(e.subject, e.condition, e.task)
  {
    StateTransitionFieldsRead(v.fields);
    var t := Stamp(v.fields["utc_timestamp"], parseTime).value;
    StateTransitionTypesMeaning(v.fields["utc_timestamp" := Time(t)]);
  }

  /** A Subject-Task line through the same three checks, with the key it is stored under. */
  function ParseSubjectTask(v: Value, line: nat, parseTime: string -> Option<int>)
    : (r: Result<(string, JsonObject), LoadError>)
    ensures r.Ok? ==> v.Object?
  {
    if !v.Object? then Err(NotAnObject(line))
    else
      var obj := v.fields;
      match SubjectTaskMissing(obj)
      case Some(attr) => Err(MissingAttribute(attr, line))
      case None =>
        SubjectTaskFieldsRead(obj);
        match Stamp(obj["task_start_time"], parseTime)
        case None => Err(BadTimestamp(line))
        case Some(t) =>
          var o := obj["task_start_time" := Time(t)];
          if !SubjectTaskTypesOk(o) then Err(WrongType(line))
          else
            SubjectTaskTypesMeaning(o);
            Ok((SessionKey(o["subject_id"], o["condition"], o["task_id"]), o))
  }

  /** Which check rejects a Subject-Task line, in the order the loader runs them. */
  lemma ParseSubjectTaskErrors(v: Value, line: nat, parseTime: string -> Option<int>)
    ensures !v.Object? ==> ParseSubjectTask(v, line, parseTime) == Err(NotAnObject(line))
    ensures v.Object? && SubjectTaskMissing(v.fields).Some? ==>
              ParseSubjectTask(v, line, parseTime) == Err(MissingAttribute(SubjectTaskMissing(v.fields).value, line))
    ensures v.Object? && SubjectTaskMissing(v.fields).None? ==>
              && "task_start_time" in v.fields
              && (Stamp(v.fields["task_start_time"], parseTime).None? ==> ParseSubjectTask(v, line, parseTime) == Err(BadTimestamp(line)))
              && (Stamp(v.fields["task_start_time"], parseTime).Some? ==>
                    var o := v.fields["task_start_time" := Time(Stamp(v.fields["task_start_time"], parseTime).value)];
                    ParseSubjectTask(v, line, parseTime).Ok? <==> SubjectTaskTypesOk(o))
  {
    if v.Object? && SubjectTaskMissing(v.fields).None? {
      SubjectTaskFieldsRead(v.fields);
    }
  }

  /** What an accepted Subject-Task line guarantees about the record stored for it. */
  lemma ParseSubjectTaskOk(v: Value, line: nat, parseTime: string -> Option<int>)
    requires ParseSubjectTask(v, line, parseTime).Ok?
    ensures v.Object? && SubjectTaskMissing(v.fields).None?
    ensures "subject_id" in v.fields && "condition" in v.fields && "task_id" in v.fields && "task_start_time" in v.fields
    ensures var (key, rec) := ParseSubjectTask(v, line, parseTime).value;
      && Stamp(v.fields["task_start_time"], parseTime).Some?
      && rec == v.fields["task_start_time" := Time(Stamp(v.fields["task_start_time"], parseTime).value)]
      && SubjectTaskTypesOk(rec)
      && IsInstance(rec["subject_id"], StrOrInt) && IsCondition(rec["condition"]) && IsInstance(rec["task_id"], StrOrInt)
      && key == SessionKey(rec["subject_id"], rec["condition"], rec["task_id"])
  {
    SubjectTaskFieldsRead(v.fields);
    var t := Stamp(v.fields["task_start_time"], parseTime).value;
    SubjectTaskTypesMeaning(v.fields["task_start_time" := Time(t)]);
  }

  // ---------------------------------------------------------------------------------
  // Whole files, line by line
  // ---------------------------------------------------------------------------------

  /**
   * Every line parsed (line numbers start at 1), or the error of the first line that fails.
   * Lines are decoded JSON values for the JSONL loaders and rows of strings for the CSV loader.
   */
  function ParseAll<I, T>(lines: seq<I>, parse: (I, nat) -> Result<T, LoadError>): (r: Result<seq<T>, LoadError>)
    ensures r.Ok? <==> forall j :: 0 <= j < |lines| ==> parse(lines[j], j + 1).Ok?
    ensures r.Ok? ==> |r.value| == |lines| && forall j :: 0 <= j < |lines| ==> parse(lines[j], j + 1) == Ok(r.value[j])
    ensures r.Err? ==> exists j :: FirstFailure(lines, parse, j) && parse(lines[j], j + 1) == Err(r.error)
    decreases |lines|
  {
    if lines == [] then Ok([])
    else
      var n := |lines|;
      var init := lines[..n - 1];
      assert forall j :: 0 <= j < n - 1 ==> init[j] == lines[j];
      match ParseAll(init, parse)
      case Err(e) =>
        var j :| FirstFailure(init, parse, j) && parse(init[j], j + 1) == Err(e);
        assert FirstFailure(lines, parse, j);
        Err(e)
      case Ok(xs) =>
        match parse(lines[n - 1], n)
        case Err(e) =>
          assert FirstFailure(lines, parse, n - 1);
          Err(e)
        case Ok(x) => Ok(xs + [x])
  }

  /** One line that does not decode makes the whole file fail. */
  lemma ParseAllFails<I, T>(lines: seq<I>, parse: (I, nat) -> Result<T, LoadError>, i: nat)
    requires i < |lines| && parse(lines[i], i + 1).Err?
    ensures ParseAll(lines, parse).Err?
  {
  }

  /** The error of a file is the error of its first line that does not decode. */
  lemma ParseAllFirstError<I, T>(lines: seq<I>, parse: (I, nat) -> Result<T, LoadError>, i: nat)
    requires i < |lines| && parse(lines[i], i + 1).Err?
    requires forall j :: 0 <= j < i ==> parse(lines[j], j + 1).Ok?
    ensures ParseAll(lines, parse) == Err(parse(lines[i], i + 1).error)
  {
    var r := ParseAll(lines, parse);
    var j :| FirstFailure(lines, parse, j) && parse(lines[j], j + 1) == Err(r.error);
    assert j == i;
  }

  /** Line `j` (0-based) is the first that does not parse. */
  predicate FirstFailure<I, T>(lines: seq<I>, parse: (I, nat) -> Result<T, LoadError>, j: int) {
    && 0 <= j < |lines|
    && parse(lines[j], j + 1).Err?
    && forall i :: 0 <= i < j ==> parse(lines[i], i + 1).Ok?
  }

  /** ParseAll is determined line by line. */
  lemma ParseAllIs<I, T>(lines: seq<I>, parse: (I, nat) -> Result<T, LoadError>, xs: seq<T>)
    requires |xs| == |lines|
    requires forall j :: 0 <= j < |lines| ==> parse(lines[j], j + 1) == Ok(xs[j])
    ensures ParseAll(lines, parse) == Ok(xs)
  {
    var r := ParseAll(lines, parse);
    assert r.Ok?;
    assert forall j :: 0 <= j < |lines| ==> r.value[j] == xs[j];
    assert r.value == xs;
  }

  /** The first `|xs|` lines decode, in order, to `xs`. */
  ghost predicate DecodedPrefix<I, T>(lines: seq<I>, parse: (I, nat) -> Result<T, LoadError>, xs: seq<T>) {
    |xs| <= |lines| && forall j :: 0 <= j < |xs| ==> parse(lines[j], j + 1) == Ok(xs[j])
  }

  lemma DecodedPrefixSnoc<I, T>(lines: seq<I>, parse: (I, nat) -> Result<T, LoadError>, xs: seq<T>, x: T)
    requires DecodedPrefix(lines, parse, xs) && |xs| < |lines| && parse(lines[|xs|], |xs| + 1) == Ok(x)
    ensures DecodedPrefix(lines, parse, xs + [x])
  {
  }

  function EventParser(parseTime: string -> Option<int>): (Value, nat) -> Result<Event, LoadError> {
    (v: Value, line: nat) => ParseEvent(v, line, parseTime)
  }

  function SubjectTaskParser(parseTime: string -> Option<int>): (Value, nat) -> Result<(string, JsonObject), LoadError> {
    (v: Value, line: nat) => ParseSubjectTask(v, line, parseTime)
  }
}
