/**
 * The JSONL loaders of eval_utils/file_utils.py other than the State-Transition fold:
 * `load_subject_task_file`, which keys every line by its session key and keeps the last
 * line for a key, and `load_jsonl_file`, which classifies a file by the presence checks on
 * its first line and hands it to the matching loader.
 */
module Loaders {
  import opened Wrappers
  import opened Json
  import opened Schema
  import opened Sessions
  import opened Lines
  import Transitions

  // ---------------------------------------------------------------------------------
  // Keyed files: a dictionary filled line by line, a later line overwriting an earlier one
  // ---------------------------------------------------------------------------------

  /** The dictionary `d[key] = value` leaves after the pairs are stored in order. */
  function LastWins<K(==), V>(ps: seq<(K, V)>): (m: map<K, V>)
    decreases |ps|
  {
    if ps == [] then map[]
    else LastWins(ps[..|ps| - 1])[ps[|ps| - 1].0 := ps[|ps| - 1].1]
  }

  /** Pair `j` is the last one stored under its key. */
  predicate LastWith<K(==), V>(ps: seq<(K, V)>, j: int) {
    0 <= j < |ps| && forall i :: j < i < |ps| ==> ps[i].0 != ps[j].0
  }

  /**
   * A key is present iff some pair carries it, and it holds the value of the last pair
   * that does: later lines silently overwrite earlier ones.
   */
  lemma LastWinsLookup<K, V>(ps: seq<(K, V)>)
    ensures forall k :: k in LastWins(ps) <==> exists j :: 0 <= j < |ps| && ps[j].0 == k
    ensures forall j :: LastWith(ps, j) ==> ps[j].0 in LastWins(ps) && LastWins(ps)[ps[j].0] == ps[j].1
  {
    LastWinsKeys(ps);
    LastWinsValues(ps);
  }

  lemma {:induction false} LastWinsKeys<K, V>(ps: seq<(K, V)>)
    ensures forall k :: k in LastWins(ps) <==> exists j :: 0 <= j < |ps| && ps[j].0 == k
    decreases |ps|
  {
    if ps != [] {
      var n := |ps|;
      var init := ps[..n - 1];
      var last := ps[n - 1];
      LastWinsKeys(init);
      var m := LastWins(ps);
      assert m == LastWins(init)[last.0 := last.1];
      forall k ensures k in m <==> exists j :: 0 <= j < n && ps[j].0 == k {
        if k == last.0 {
          assert ps[n - 1].0 == k;
        } else if k in m {
          var j :| 0 <= j < n - 1 && init[j].0 == k;
          assert ps[j].0 == k;
        } else {
          assert forall j :: 0 <= j < n - 1 ==> init[j] == ps[j];
        }
      }
    }
  }

  lemma {:induction false} LastWinsValues<K, V>(ps: seq<(K, V)>)
    ensures forall j :: LastWith(ps, j) ==> ps[j].0 in LastWins(ps) && LastWins(ps)[ps[j].0] == ps[j].1
    decreases |ps|
  {
    if ps != [] {
      var n := |ps|;
      var init := ps[..n - 1];
      var last := ps[n - 1];
      LastWinsValues(init);
      var m := LastWins(ps);
      assert m == LastWins(init)[last.0 := last.1];
      forall j | LastWith(ps, j) ensures ps[j].0 in m && m[ps[j].0] == ps[j].1 {
        if j < n - 1 {
          assert init[j] == ps[j];
          assert LastWith(init, j);
        }
      }
    }
  }

  /** The records of a keyed file, or the error of its first line that does not decode. */
  function KeyedRecords<I>(lines: seq<I>, parse: (I, nat) -> Result<(string, JsonObject), LoadError>)
    : Result<Records, LoadError>
  {
    match ParseAll(lines, parse)
    case Ok(ps) => Ok(LastWins(ps))
    case Err(e) => Err(e)
  }

  /** A keyed file whose line `|ps|` is the first that does not decode fails with that line's error. */
  lemma KeyedFails<I>(lines: seq<I>, parse: (I, nat) -> Result<(string, JsonObject), LoadError>,
                      ps: seq<(string, JsonObject)>)
    requires DecodedPrefix(lines, parse, ps) && |ps| < |lines| && parse(lines[|ps|], |ps| + 1).Err?
    ensures KeyedRecords(lines, parse) == Err(parse(lines[|ps|], |ps| + 1).error)
  {
    ParseAllFirstError(lines, parse, |ps|);
  }

  /** A keyed file whose lines all decode holds the last record stored under each key. */
  lemma KeyedSucceeds<I>(lines: seq<I>, parse: (I, nat) -> Result<(string, JsonObject), LoadError>,
                         ps: seq<(string, JsonObject)>)
    requires DecodedPrefix(lines, parse, ps) && |ps| == |lines|
    ensures KeyedRecords(lines, parse) == Ok(LastWins(ps))
  {
    ParseAllIs(lines, parse, ps);
  }

  /** Reads a keyed file line by line into a dictionary. */
  method LoadKeyed<I>(lines: seq<I>, parse: (I, nat) -> Result<(string, JsonObject), LoadError>)
    returns (r: Result<Records, LoadError>)
    ensures r == KeyedRecords(lines, parse)
  {
    var records: Records := map[];
    ghost var ps: seq<(string, JsonObject)> := [];
    var i := 0;
    while i < |lines|
      invariant i <= |lines| && |ps| == i
      invariant DecodedPrefix(lines, parse, ps)
      invariant records == LastWins(ps)
    {
      var parsed := parse(lines[i], i + 1);
      if parsed.Err? {
        KeyedFails(lines, parse, ps);
        return Err(parsed.error);
      }
      var (key, record) := parsed.value;
      records := records[key := record];
      DecodedPrefixSnoc(lines, parse, ps, (key, record));
      ps := ps + [(key, record)];
      assert ps[..|ps| - 1] == ps[..i];
      i := i + 1;
    }
    KeyedSucceeds(lines, parse, ps);
    return Ok(records);
  }

  /**
   * load_subject_task_file: every line through the presence, timestamp and type checks,
   * stored under `"{subject_id}_{condition}_{task_id}"`.
   */
  method LoadSubjectTaskFile(lines: seq<Value>, parseTime: string -> Option<int>)
    returns (r: Result<Records, LoadError>)
    ensures r == KeyedRecords(lines, SubjectTaskParser(parseTime))
  {
    r := LoadKeyed(lines, SubjectTaskParser(parseTime));
  }

  /**
   * Every record a Subject-Task file yields is a type-checked line of the file, its timestamp
   * parsed, stored under its own session key.
   */
  lemma SubjectTaskFileRecord(lines: seq<Value>, parseTime: string -> Option<int>, k: string)
    requires KeyedRecords(lines, SubjectTaskParser(parseTime)).Ok?
    requires k in KeyedRecords(lines, SubjectTaskParser(parseTime)).value
    ensures var rec := KeyedRecords(lines, SubjectTaskParser(parseTime)).value[k];
      && SubjectTaskTypesOk(rec)
      && "subject_id" in rec && IsInstance(rec["subject_id"], StrOrInt)
      && "condition" in rec && IsCondition(rec["condition"])
      && "task_id" in rec && IsInstance(rec["task_id"], StrOrInt)
      && k == SessionKey(rec["subject_id"], rec["condition"], rec["task_id"])
  {
    var j := KeyedRecordLine(lines, SubjectTaskParser(parseTime), k);
    ParseSubjectTaskOk(lines[j], j + 1, parseTime);
  }

  /** Line `j` of the file (numbered `j + 1`) decodes to `x`. */
  predicate LineDecodesTo<I>(lines: seq<I>, parse: (I, nat) -> Result<(string, JsonObject), LoadError>, j: int,
                             x: (string, JsonObject)) {
    0 <= j < |lines| && parse(lines[j], j + 1) == Ok(x)
  }

  /** The line a keyed file's record for `k` comes from: the last line with that key. */
  lemma KeyedRecordLine<I>(lines: seq<I>, parse: (I, nat) -> Result<(string, JsonObject), LoadError>, k: string)
    returns (j: nat)
    requires KeyedRecords(lines, parse).Ok? && k in KeyedRecords(lines, parse).value
    ensures LineDecodesTo(lines, parse, j, (k, KeyedRecords(lines, parse).value[k]))
    ensures forall i :: j < i < |lines| ==> parse(lines[i], i + 1).Ok? && parse(lines[i], i + 1).value.0 != k
  {
    var ps := ParseAll(lines, parse).value;
    var records := KeyedRecords(lines, parse).value;
    assert records == LastWins(ps);
    LastWinsLookup(ps);
    var j0 :| 0 <= j0 < |ps| && ps[j0].0 == k;
    j := LastIndexOf(ps, k, j0);
    forall i | j < i < |lines| ensures parse(lines[i], i + 1).Ok? && parse(lines[i], i + 1).value.0 != k {
      assert parse(lines[i], i + 1) == Ok(ps[i]);
    }
    assert records[k] == ps[j].1;
    assert ps[j] == (k, records[k]);
    assert LineDecodesTo(lines, parse, j, ps[j]);
  }

  /** The last index at or after `j` whose pair carries the key `k`. */
  lemma LastIndexOf<K, V>(ps: seq<(K, V)>, k: K, j: nat) returns (last: nat)
    requires j < |ps| && ps[j].0 == k
    ensures LastWith(ps, last) && ps[last].0 == k && j <= last
    decreases |ps| - j
  {
    if LastWith(ps, j) {
      last := j;
    } else {
      var i :| j < i < |ps| && ps[i].0 == k;
      last := LastIndexOf(ps, k, i);
    }
  }

  // ---------------------------------------------------------------------------------
  // load_jsonl_file: classification by the first line
  // ---------------------------------------------------------------------------------

  datatype Shape = SubjectTaskShape | StateTransitionShape

  /**
   * The shape the first line of a JSONL file selects: the Subject-Task presence check is
   * tried first, then the State-Transition one; when both fail the error names the field
   * each of them found missing. Only the presence checks take part.
   */
  function Classify(first: Value): (r: Result<Shape, LoadError>)
    ensures r == Ok(SubjectTaskShape) <==> first.Object? && SubjectTaskMissing(first.fields).None?
    ensures r == Ok(StateTransitionShape) <==>
              first.Object? && SubjectTaskMissing(first.fields).Some? && StateTransitionMissing(first.fields).None?
    ensures r.Err? && first.Object? ==>
              r.error == UnrecognizedFormat(SubjectTaskMissing(first.fields).value, StateTransitionMissing(first.fields).value)
  {
    if !first.Object? then Err(NotAnObject(1))
    else
      match SubjectTaskMissing(first.fields)
      case None => Ok(SubjectTaskShape)
      case Some(subjectTaskErr) =>
        match StateTransitionMissing(first.fields)
        case None => Ok(StateTransitionShape)
        case Some(stateTransitionErr) => Err(UnrecognizedFormat(subjectTaskErr, stateTransitionErr))
  }

  /** A presence check reads only which fields are there, never their values. */
  lemma {:induction false} FirstMissingByKeys(schema: Schema, a: JsonObject, b: JsonObject)
    requires a.Keys == b.Keys
    ensures FirstMissing(schema, a) == FirstMissing(schema, b)
    decreases |schema|
  {
    if schema != [] {
      assert (schema[0].0 in a) == (schema[0].0 in b);
      FirstMissingByKeys(schema[1..], a, b);
    }
  }

  /** Classification depends on the first line's field names alone: values are not type-checked. */
  lemma ClassifyByKeys(a: Value, b: Value)
    requires a.Object? && b.Object? && a.fields.Keys == b.fields.Keys
    ensures Classify(a) == Classify(b)
  {
    FirstMissingByKeys(SubjectTaskSchema, a.fields, b.fields);
    FirstMissingByKeys(StateTransitionSchema, a.fields, b.fields);
  }

  /**
   * A first line carrying all five State-Transition fields is read as a State-Transition file
   * exactly when one of the twelve Subject-Task fields is absent.
   */
  lemma ClassifyStateTransition(first: Value)
    requires first.Object?
    requires forall attr :: attr in StateTransitionRequired ==> attr in first.fields
    ensures Classify(first) == Ok(StateTransitionShape) <==>
              exists attr :: attr in SubjectTaskRequired && attr !in first.fields
  {
    StateTransitionPresence(first.fields);
    SubjectTaskPresence(first.fields);
  }

  /** The records load_jsonl_file returns, or None where it raises. */
  function JsonlRecords(lines: seq<Value>, parseTime: string -> Option<int>): Option<Records> {
    if lines == [] then None
    else
      match Classify(lines[0])
      case Err(_) => None
      case Ok(SubjectTaskShape) =>
        var r := KeyedRecords(lines, SubjectTaskParser(parseTime));
        if r.Ok? then Some(r.value) else None
      case Ok(StateTransitionShape) =>
        var events := ParseAll(lines, EventParser(parseTime));
        if events.Ok? && ValidStream(events.value) then Some(StreamRecords(events.value)) else None
  }

  /**
   * load_jsonl_file: an empty file fails to decode its first line; otherwise the first line
   * selects the loader, which then reads the whole file (the first line included).
   */
  method LoadJsonlFile(lines: seq<Value>, parseTime: string -> Option<int>)
    returns (r: Result<Records, LoadError>)
    ensures lines == [] ==> r == Err(EmptyFile)
    ensures lines != [] && Classify(lines[0]).Err? ==> r == Err(Classify(lines[0]).error)
    ensures lines != [] && Classify(lines[0]) == Ok(SubjectTaskShape) ==>
              r == KeyedRecords(lines, SubjectTaskParser(parseTime))
    ensures lines != [] && Classify(lines[0]) == Ok(StateTransitionShape) ==>
              var events := ParseAll(lines, EventParser(parseTime));
              && (r.Ok? <==> events.Ok? && ValidStream(events.value))
              && (r.Ok? ==> r.value == StreamRecords(events.value))
    ensures r.Ok? <==> JsonlRecords(lines, parseTime).Some?
    ensures r.Ok? ==> r.value == JsonlRecords(lines, parseTime).value
  {
    if lines == [] {
      return Err(EmptyFile);
    }
    var shape := Classify(lines[0]);
    match shape
    case Err(e) =>
      r := Err(e);
    case Ok(SubjectTaskShape) =>
      r := LoadSubjectTaskFile(lines, parseTime);
    case Ok(StateTransitionShape) =>
      r := Transitions.LoadStateTransitionsFile(lines, parseTime);
  }
}
