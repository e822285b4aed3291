/**
 * load_directory (eval_utils/file_utils.py): every `.jsonl` file of a directory listing is
 * loaded and merged, key by key, into one dictionary of session records; `task_metadata.csv`
 * is loaded into the task-metadata dictionary; every other file is ignored.
 *
 * A record seen before is reconciled with the new one: a record carrying `state_transitions`
 * and one without are complementary and are combined; two of the same kind must agree
 * (ignoring `file_source`). Totals that differ by more than one second only produce a
 * warning, returned here as data instead of printed.
 *
 * The directory is its listing, in listing order, each file with its contents already
 * decoded: as JSON lines for the JSONL loader and as CSV rows for the CSV loader.
 */
module Directory {
  import opened Wrappers
  import opened Json
  import opened Lines
  import opened Loaders
  import opened Metadata

  /** TIME_DIFFERENCE_THRESHOLD, in seconds. */
  const TimeDifferenceThreshold: real := 1.0

  const FileSource := "file_source"
  const StateTransitions := "state_transitions"
  const MetadataFileName := "task_metadata.csv"

  datatype FileEntry = FileEntry(name: string, lines: seq<Value>, rows: seq<seq<string>>)

  /** A printed warning: `field` of `key` is `recorded` in `recordedFile` and `found` in `newFile`. */
  datatype Warning = TimeConflict(field: string, key: string, recorded: real, found: real, recordedFile: Value, newFile: string)

  // ---------------------------------------------------------------------------------
  // os.path.splitext on a file name (no directory part)
  // ---------------------------------------------------------------------------------

  /** The index of the last `.` in `s`. */
  function LastDot(s: string): (r: Option<nat>)
    ensures r.Some? ==> r.value < |s| && s[r.value] == '.' && forall i :: r.value < i < |s| ==> s[i] != '.'
    ensures r.None? ==> forall i :: 0 <= i < |s| ==> s[i] != '.'
  {
    if s == [] then None
    else if s[|s| - 1] == '.' then Some(|s| - 1)
    else LastDot(s[..|s| - 1])
  }

  /**
   * The extension splitext returns: from the last dot on, unless everything before that dot
   * is dots (a name like `.jsonl` has no extension).
   */
  function Extension(name: string): (ext: string)
    ensures ext != "" ==> |ext| <= |name| && ext[0] == '.' && name[|name| - |ext|..] == ext
  {
    match LastDot(name)
    case None => ""
    case Some(d) =>
      if exists i :: 0 <= i < d && name[i] != '.' then name[d..] else ""
  }

  /** A name ending in `.jsonl` after a stem that is not all dots has the extension `.jsonl`. */
  lemma JsonlExtension(stem: string)
    requires exists i :: 0 <= i < |stem| && stem[i] != '.'
    ensures Extension(stem + ".jsonl") == ".jsonl"
  {
    var name := stem + ".jsonl";
    assert name[|stem|] == '.';
    assert forall i :: |stem| < i < |name| ==> name[i] != '.';
    var i :| 0 <= i < |stem| && stem[i] != '.';
    assert name[i] == stem[i];
    assert LastDot(name) == Some(|stem|) by {
      var d := LastDot(name).value;
      assert d >= |stem|;
    }
    assert name[|stem|..] == ".jsonl";
  }

  /** A `.json` file never has the extension `.jsonl`. */
  lemma JsonIsNotJsonl(stem: string)
    ensures Extension(stem + ".json") != ".jsonl"
  {
    var name := stem + ".json";
    var ext := Extension(name);
    if ext != "" {
      assert name[|name| - 1] == 'n';
      assert ext[|ext| - 1] == name[|name| - 1];
    }
  }

  // ---------------------------------------------------------------------------------
  // Reconciling two records of one key
  // ---------------------------------------------------------------------------------

  function Abs(x: real): real {
    if x < 0.0 then -x else x
  }

  /** A total as a number, or None where reading it raises (absent, or not a number). */
  function Total(rec: JsonObject, field: string): Option<real> {
    if field in rec then AsNumber(rec[field]) else None
  }

  predicate HasTotals(rec: JsonObject) {
    Total(rec, "task_total_time").Some? && Total(rec, "km_pull_total_time").Some?
  }

  /** The warnings printed when a key is seen again: one per total that differs by more than the threshold. */
  function TimeWarnings(key: string, existing: JsonObject, incoming: JsonObject, filename: string): (ws: seq<Warning>)
    requires FileSource in existing
    ensures forall w :: w in ws ==>
              && w.key == key && w.newFile == filename && w.recordedFile == existing[FileSource]
              && Abs(w.recorded - w.found) > TimeDifferenceThreshold
              && Total(existing, w.field) == Some(w.recorded) && Total(incoming, w.field) == Some(w.found)
    ensures HasTotals(existing) && HasTotals(incoming) ==>
              forall field :: field in ["task_total_time", "km_pull_total_time"] ==>
                (Abs(Total(existing, field).value - Total(incoming, field).value) > TimeDifferenceThreshold <==>
                 exists w :: w in ws && w.field == field)
  {
    if !HasTotals(existing) || !HasTotals(incoming) then []
    else
      var recordedTotal := Total(existing, "task_total_time").value;
      var recordedKm := Total(existing, "km_pull_total_time").value;
      var newTotal := Total(incoming, "task_total_time").value;
      var newKm := Total(incoming, "km_pull_total_time").value;
      var recordedFile := existing[FileSource];
      (if Abs(recordedTotal - newTotal) > TimeDifferenceThreshold
       then [TimeConflict("task_total_time", key, recordedTotal, newTotal, recordedFile, filename)] else [])
      + (if Abs(recordedKm - newKm) > TimeDifferenceThreshold
         then [TimeConflict("km_pull_total_time", key, recordedKm, newKm, recordedFile, filename)] else [])
  }

  /**
   * The record stored for a key already present. Reading the totals raises first when one is
   * missing or not a number; then the four cases on which record carries `state_transitions`.
   */
  function MergeRecord(key: string, existing: JsonObject, incoming: JsonObject, filename: string)
    : (r: Result<JsonObject, LoadError>)
    requires FileSource in existing
    ensures r.Ok? ==> FileSource in r.value
  {
    if !HasTotals(existing) || !HasTotals(incoming) then Err(BadTotals(key, filename))
    else if StateTransitions in existing && StateTransitions !in incoming then
      Ok(incoming[StateTransitions := existing[StateTransitions]][FileSource := Str(filename)])
    else if StateTransitions in incoming && StateTransitions !in existing then
      Ok(existing[StateTransitions := incoming[StateTransitions]])
    else if ObjEq(incoming, existing - {FileSource}) then Ok(existing)
    else Err(ConflictingRecords(key, existing[FileSource], filename, StateTransitions in incoming))
  }

  /**
   * A record with `state_transitions` and one without are combined without comparing them,
   * whatever their totals: the result is the record without the list, given the other's list,
   * and `file_source` names the file the record without the list came from.
   */
  lemma ComplementaryMerge(key: string, existing: JsonObject, incoming: JsonObject, filename: string)
    requires FileSource in existing && HasTotals(existing) && HasTotals(incoming)
    requires (StateTransitions in existing) != (StateTransitions in incoming)
    ensures var plain := if StateTransitions in existing then incoming else existing;
      var list := if StateTransitions in existing then existing[StateTransitions] else incoming[StateTransitions];
      var source := if StateTransitions in existing then Str(filename) else existing[FileSource];
      MergeRecord(key, existing, incoming, filename) == Ok(plain[StateTransitions := list][FileSource := source])
  {
    if StateTransitions !in existing {
      var m := existing[StateTransitions := incoming[StateTransitions]];
      assert m[FileSource := existing[FileSource]] == m;
    }
  }

  /**
   * Complementary records give the same merged record, `file_source` included, whichever of
   * the two files comes first in the listing.
   */
  lemma ComplementaryOrderIndependent(key: string, plain: JsonObject, withList: JsonObject, plainFile: string, listFile: string)
    requires StateTransitions !in plain && StateTransitions in withList
    requires HasTotals(plain) && HasTotals(withList)
    ensures MergeRecord(key, withList[FileSource := Str(listFile)], plain, plainFile)
         == MergeRecord(key, plain[FileSource := Str(plainFile)], withList, listFile)
         == Ok(plain[StateTransitions := withList[StateTransitions]][FileSource := Str(plainFile)])
  {
    assert Total(withList[FileSource := Str(listFile)], "task_total_time") == Total(withList, "task_total_time");
    assert Total(withList[FileSource := Str(listFile)], "km_pull_total_time") == Total(withList, "km_pull_total_time");
    assert Total(plain[FileSource := Str(plainFile)], "task_total_time") == Total(plain, "task_total_time");
    assert Total(plain[FileSource := Str(plainFile)], "km_pull_total_time") == Total(plain, "km_pull_total_time");
    var list := withList[StateTransitions];
    assert plain[FileSource := Str(plainFile)][StateTransitions := list]
        == plain[StateTransitions := list][FileSource := Str(plainFile)];
  }

  /**
   * Two records of the same kind (both with `state_transitions`, or neither) merge iff the new
   * one equals the stored one without `file_source`; the stored record, `file_source`
   * included, is then kept unchanged.
   */
  lemma SameKindMerge(key: string, existing: JsonObject, incoming: JsonObject, filename: string)
    requires FileSource in existing && HasTotals(existing) && HasTotals(incoming)
    requires (StateTransitions in existing) == (StateTransitions in incoming)
    ensures MergeRecord(key, existing, incoming, filename).Ok? <==> ObjEq(incoming, existing - {FileSource})
    ensures MergeRecord(key, existing, incoming, filename).Ok? ==> MergeRecord(key, existing, incoming, filename).value == existing
    ensures MergeRecord(key, existing, incoming, filename).Err? ==>
              MergeRecord(key, existing, incoming, filename).error ==
                ConflictingRecords(key, existing[FileSource], filename, StateTransitions in incoming)
  {
  }

  /** The >1 s tolerance is only a warning: totals 5 s apart still merge, with one warning. */
  lemma WarningIsNotFatal()
    ensures var existing := map["task_total_time" := Real(10.0), "km_pull_total_time" := Real(2.0),
                                StateTransitions := List([]), FileSource := Str("a.jsonl")];
      var incoming := map["task_total_time" := Real(15.0), "km_pull_total_time" := Int(2)];
      && MergeRecord("s_prototype_t", existing, incoming, "b.jsonl").Ok?
      && |TimeWarnings("s_prototype_t", existing, incoming, "b.jsonl")| == 1
  {
    var existing := map["task_total_time" := Real(10.0), "km_pull_total_time" := Real(2.0),
                        StateTransitions := List([]), FileSource := Str("a.jsonl")];
    var incoming := map["task_total_time" := Real(15.0), "km_pull_total_time" := Int(2)];
    assert Total(existing, "task_total_time") == Some(10.0) && Total(existing, "km_pull_total_time") == Some(2.0);
    assert Total(incoming, "task_total_time") == Some(15.0) && Total(incoming, "km_pull_total_time") == Some(2.0);
    assert StateTransitions !in incoming;
  }

  // ---------------------------------------------------------------------------------
  // Merging one file
  // ---------------------------------------------------------------------------------

  /** Every stored record names the file it was taken from. */
  predicate Sourced(jsonl: Records) {
    forall k :: k in jsonl ==> FileSource in jsonl[k]
  }

  /** `w` is printed when the file is merged: a warning of a key the file shares with the dictionary. */
  ghost predicate FileWarning(jsonl: Records, file: Records, filename: string, w: Warning)
    requires Sourced(jsonl)
  {
    w.key in jsonl && w.key in file && w in TimeWarnings(w.key, jsonl[w.key], file[w.key], filename)
  }

  /** What is stored under `k` after the file is merged (given that `k` itself merges). */
  function MergedAt(jsonl: Records, file: Records, filename: string, k: string): JsonObject
    requires Sourced(jsonl) && (k in jsonl || k in file)
    requires k in jsonl && k in file ==> MergeRecord(k, jsonl[k], file[k], filename).Ok?
  {
    if k !in file then jsonl[k]
    else if k !in jsonl then file[k][FileSource := Str(filename)]
    else MergeRecord(k, jsonl[k], file[k], filename).value
  }

  predicate MergesCleanly(jsonl: Records, file: Records, filename: string)
    requires Sourced(jsonl)
  {
    forall k :: k in file && k in jsonl ==> MergeRecord(k, jsonl[k], file[k], filename).Ok?
  }

  /**
   * The dictionary after one JSONL file is merged, or None where a key raises: new keys are
   * stored with `file_source` set to the file, keys seen before are reconciled.
   */
  function MergeAll(jsonl: Records, file: Records, filename: string): (r: Option<Records>)
    requires Sourced(jsonl)
    ensures r.Some? <==> MergesCleanly(jsonl, file, filename)
    ensures r.Some? ==> r.value.Keys == jsonl.Keys + file.Keys && Sourced(r.value)
    ensures r.Some? ==> forall k :: k in jsonl && k !in file ==> r.value[k] == jsonl[k]
  {
    if MergesCleanly(jsonl, file, filename) then
      Some(map k | k in jsonl.Keys + file.Keys :: MergedAt(jsonl, file, filename, k))
    else None
  }

  /** One key of a file against the stored record: the warnings, then the merge. */
  method MergeKey(key: string, existing: JsonObject, incoming: JsonObject, filename: string)
    returns (r: Result<JsonObject, LoadError>, warnings: seq<Warning>)
    requires FileSource in existing
    ensures r == MergeRecord(key, existing, incoming, filename)
    ensures warnings == TimeWarnings(key, existing, incoming, filename)
  {
    warnings := [];
    var recordedTotal := Total(existing, "task_total_time");
    var recordedKm := Total(existing, "km_pull_total_time");
    var recordedFile := existing[FileSource];
    var newTotal := Total(incoming, "task_total_time");
    var newKm := Total(incoming, "km_pull_total_time");
    if recordedTotal.None? || recordedKm.None? || newTotal.None? || newKm.None? {
      return Err(BadTotals(key, filename)), warnings;
    }
    if Abs(recordedTotal.value - newTotal.value) > TimeDifferenceThreshold {
      warnings := warnings + [TimeConflict("task_total_time", key, recordedTotal.value, newTotal.value, recordedFile, filename)];
    }
    if Abs(recordedKm.value - newKm.value) > TimeDifferenceThreshold {
      warnings := warnings + [TimeConflict("km_pull_total_time", key, recordedKm.value, newKm.value, recordedFile, filename)];
    }
    if StateTransitions in existing && StateTransitions !in incoming {
      var record := incoming[StateTransitions := existing[StateTransitions]];
      record := record[FileSource := Str(filename)];
      r := Ok(record);
    } else if StateTransitions in incoming && StateTransitions !in existing {
      r := Ok(existing[StateTransitions := incoming[StateTransitions]]);
    } else {
      var comparable := existing - {FileSource};
      if !ObjEq(incoming, comparable) {
        return Err(ConflictingRecords(key, recordedFile, filename, StateTransitions in incoming)), warnings;
      }
      r := Ok(existing);
    }
  }

  /**
   * The inner loop of load_directory over the keys of one loaded file. Keys are taken in an
   * order left open, so which conflicting key is reported and the order of the warnings are
   * not specified; the outcome and the merged dictionary are.
   */
  method MergeFile(jsonl: Records, file: Records, filename: string)
    returns (r: Result<Records, LoadError>, warnings: seq<Warning>)
    requires Sourced(jsonl)
    ensures r.Ok? <==> MergeAll(jsonl, file, filename).Some?
    ensures r.Ok? ==> r.value == MergeAll(jsonl, file, filename).value
    ensures forall w :: w in warnings ==> FileWarning(jsonl, file, filename, w)
    ensures r.Ok? ==> forall k, w :: k in jsonl && k in file && w in TimeWarnings(k, jsonl[k], file[k], filename) ==> w in warnings
  {
    var out := jsonl;
    var pending := file.Keys;
    warnings := [];
    while pending != {}
      invariant MergedSoFar(jsonl, file, filename, pending, out)
      invariant WarnedSoFar(jsonl, file, filename, pending, warnings)
      decreases pending
    {
      var k :| k in pending;
      var merged, ws := MergeEntry(jsonl, file, filename, pending, out, k);
      if merged.Err? {
        MergeStepFails(jsonl, file, filename, pending, warnings, k, ws);
        return Err(merged.error), warnings + ws;
      }
      MergeStep(jsonl, file, filename, pending, out, warnings, k, merged.value, ws);
      warnings := warnings + ws;
      out := out[k := merged.value];
      pending := pending - {k};
    }
    MergeDone(jsonl, file, filename, out, warnings);
    r := Ok(out);
  }

  /** With no key pending, `out` is the merged dictionary and every merged key's warnings were given. */
  lemma MergeDone(jsonl: Records, file: Records, filename: string, out: Records, warnings: seq<Warning>)
    requires Sourced(jsonl) && MergedSoFar(jsonl, file, filename, {}, out) && WarnedSoFar(jsonl, file, filename, {}, warnings)
    ensures MergeAll(jsonl, file, filename) == Some(out)
    ensures forall k, w :: k in jsonl && k in file && w in TimeWarnings(k, jsonl[k], file[k], filename) ==> w in warnings
  {
    SameMap(out, MergeAll(jsonl, file, filename).value);
  }

  /**
   * One key of the file: stored with its `file_source` when new, otherwise reconciled with
   * the stored record (which is still the one from before this file).
   */
  method MergeEntry(jsonl: Records, file: Records, filename: string, ghost pending: set<string>, out: Records, k: string)
    returns (r: Result<JsonObject, LoadError>, warnings: seq<Warning>)
    requires Sourced(jsonl) && MergedSoFar(jsonl, file, filename, pending, out) && k in pending
    ensures k !in jsonl ==> r == Ok(file[k][FileSource := Str(filename)]) && warnings == []
    ensures k in jsonl ==> r == MergeRecord(k, jsonl[k], file[k], filename) && warnings == TimeWarnings(k, jsonl[k], file[k], filename)
  {
    if k !in out {
      return Ok(file[k][FileSource := Str(filename)]), [];
    }
    assert out[k] == jsonl[k];
    r, warnings := MergeKey(k, out[k], file[k], filename);
  }

  /** The keys of the file not in `pending` are merged into `out`; the others are as stored. */
  ghost predicate MergedSoFar(jsonl: Records, file: Records, filename: string, pending: set<string>, out: Records)
    requires Sourced(jsonl)
  {
    && pending <= file.Keys
    && out.Keys == jsonl.Keys + (file.Keys - pending)
    && (forall k :: k in file && k !in pending && k in jsonl ==> MergeRecord(k, jsonl[k], file[k], filename).Ok?)
    && (forall k :: k in out ==>
          out[k] == if k in file && k !in pending then MergedAt(jsonl, file, filename, k) else jsonl[k])
  }

  /** Every warning is one of a merged key's, and every merged key's warnings are there. */
  ghost predicate WarnedSoFar(jsonl: Records, file: Records, filename: string, pending: set<string>, warnings: seq<Warning>)
    requires Sourced(jsonl)
  {
    && (forall w :: w in warnings ==>
          w.key in jsonl && w.key in file && w in TimeWarnings(w.key, jsonl[w.key], file[w.key], filename))
    && (forall k, w :: k in jsonl && k in file && k !in pending && w in TimeWarnings(k, jsonl[k], file[k], filename) ==>
          w in warnings)
  }

  lemma MergeStep(jsonl: Records, file: Records, filename: string, pending: set<string>, out: Records,
                  warnings: seq<Warning>, k: string, v: JsonObject, ws: seq<Warning>)
    requires Sourced(jsonl) && MergedSoFar(jsonl, file, filename, pending, out)
    requires WarnedSoFar(jsonl, file, filename, pending, warnings)
    requires k in pending
    requires k in jsonl ==> MergeRecord(k, jsonl[k], file[k], filename) == Ok(v) && ws == TimeWarnings(k, jsonl[k], file[k], filename)
    requires k !in jsonl ==> v == file[k][FileSource := Str(filename)] && ws == []
    ensures MergedSoFar(jsonl, file, filename, pending - {k}, out[k := v])
    ensures WarnedSoFar(jsonl, file, filename, pending - {k}, warnings + ws)
  {
    MergedStep(jsonl, file, filename, pending, out, k, v);
    WarnedStep(jsonl, file, filename, pending, warnings, k, ws);
  }

  lemma MergedStep(jsonl: Records, file: Records, filename: string, pending: set<string>, out: Records,
                   k: string, v: JsonObject)
    requires Sourced(jsonl) && MergedSoFar(jsonl, file, filename, pending, out)
    requires k in pending
    requires k in jsonl ==> MergeRecord(k, jsonl[k], file[k], filename) == Ok(v)
    requires k !in jsonl ==> v == file[k][FileSource := Str(filename)]
    ensures MergedSoFar(jsonl, file, filename, pending - {k}, out[k := v])
  {
    MergedStepOk(jsonl, file, filename, pending, out, k, v);
    MergedStepValues(jsonl, file, filename, pending, out, k, v);
  }

  lemma MergedStepOk(jsonl: Records, file: Records, filename: string, pending: set<string>, out: Records,
                     k: string, v: JsonObject)
    requires Sourced(jsonl) && MergedSoFar(jsonl, file, filename, pending, out)
    requires k in pending
    requires k in jsonl ==> MergeRecord(k, jsonl[k], file[k], filename) == Ok(v)
    ensures out[k := v].Keys == jsonl.Keys + (file.Keys - (pending - {k}))
    ensures forall k' :: k' in file && k' !in pending - {k} && k' in jsonl ==> MergeRecord(k', jsonl[k'], file[k'], filename).Ok?
  {
  }

  lemma MergedStepValues(jsonl: Records, file: Records, filename: string, pending: set<string>, out: Records,
                         k: string, v: JsonObject)
    requires Sourced(jsonl) && MergedSoFar(jsonl, file, filename, pending, out)
    requires k in pending
    requires k in jsonl ==> MergeRecord(k, jsonl[k], file[k], filename) == Ok(v)
    requires k !in jsonl ==> v == file[k][FileSource := Str(filename)]
    ensures forall k' :: k' in out[k := v] ==>
              out[k := v][k'] == if k' in file && k' !in pending - {k} then MergedAt(jsonl, file, filename, k') else jsonl[k']
  {
    var out' := out[k := v];
    assert v == MergedAt(jsonl, file, filename, k);
    forall k' | k' in out' && k' != k
      ensures out'[k'] == if k' in file && k' !in pending - {k} then MergedAt(jsonl, file, filename, k') else jsonl[k']
    {
      assert out'[k'] == out[k'];
    }
  }

  lemma WarnedStep(jsonl: Records, file: Records, filename: string, pending: set<string>,
                   warnings: seq<Warning>, k: string, ws: seq<Warning>)
    requires Sourced(jsonl) && pending <= file.Keys && WarnedSoFar(jsonl, file, filename, pending, warnings)
    requires k in pending
    requires k in jsonl ==> ws == TimeWarnings(k, jsonl[k], file[k], filename)
    requires k !in jsonl ==> ws == []
    ensures WarnedSoFar(jsonl, file, filename, pending - {k}, warnings + ws)
  {
  }

  lemma MergeStepFails(jsonl: Records, file: Records, filename: string, pending: set<string>,
                       warnings: seq<Warning>, k: string, ws: seq<Warning>)
    requires Sourced(jsonl) && pending <= file.Keys
    requires WarnedSoFar(jsonl, file, filename, pending, warnings)
    requires k in pending && k in jsonl && MergeRecord(k, jsonl[k], file[k], filename).Err?
    requires ws == TimeWarnings(k, jsonl[k], file[k], filename)
    ensures MergeAll(jsonl, file, filename).None?
    ensures forall w :: w in warnings + ws ==>
              w.key in jsonl && w.key in file && w in TimeWarnings(w.key, jsonl[w.key], file[w.key], filename)
  {
  }

  // ---------------------------------------------------------------------------------
  // The whole listing
  // ---------------------------------------------------------------------------------

  /** One file of the listing: `.jsonl` files are merged, `task_metadata.csv` is loaded, the rest ignored. */
  function Step(state: (Records, Records), entry: FileEntry, parseTime: string -> Option<int>,
                parseFloat: string -> Option<real>, parseInt: string -> Option<int>)
    : (r: Option<(Records, Records)>)
    requires Sourced(state.0)
    ensures r.Some? ==> Sourced(r.value.0)
  {
    if Extension(entry.name) == ".jsonl" then
      match JsonlRecords(entry.lines, parseTime)
      case None => None
      case Some(file) =>
        match MergeAll(state.0, file, entry.name)
        case None => None
        case Some(jsonl) => Some((jsonl, state.1))
    else if entry.name == MetadataFileName then
      match CsvRecords(entry.rows, parseFloat, parseInt)
      case None => None
      case Some(tasks) => Some((state.0, state.1 + tasks))
    else Some(state)
  }

  /** The two dictionaries load_directory returns for a listing, or None where it raises. */
  function DirectoryRecords(entries: seq<FileEntry>, parseTime: string -> Option<int>,
                            parseFloat: string -> Option<real>, parseInt: string -> Option<int>)
    : (r: Option<(Records, Records)>)
    ensures r.Some? ==> Sourced(r.value.0)
    decreases |entries|
  {
    if entries == [] then Some((map[], map[]))
    else
      match DirectoryRecords(entries[..|entries| - 1], parseTime, parseFloat, parseInt)
      case None => None
      case Some(state) => Step(state, entries[|entries| - 1], parseTime, parseFloat, parseInt)
  }

  /** One more file of the listing: the state so far through Step. */
  lemma DirectoryStep(entries: seq<FileEntry>, i: nat, parseTime: string -> Option<int>,
                      parseFloat: string -> Option<real>, parseInt: string -> Option<int>)
    requires i < |entries|
    ensures var before := DirectoryRecords(entries[..i], parseTime, parseFloat, parseInt);
            DirectoryRecords(entries[..i + 1], parseTime, parseFloat, parseInt)
              == if before.None? then None else Step(before.value, entries[i], parseTime, parseFloat, parseInt)
  {
    assert entries[..i + 1][..i] == entries[..i];
  }

  /** Once a file of the listing raises, load_directory raises whatever files follow. */
  lemma {:induction false} FailureIsFinal(entries: seq<FileEntry>, n: nat, parseTime: string -> Option<int>,
                                          parseFloat: string -> Option<real>, parseInt: string -> Option<int>)
    requires n <= |entries| && DirectoryRecords(entries[..n], parseTime, parseFloat, parseInt).None?
    ensures DirectoryRecords(entries, parseTime, parseFloat, parseInt).None?
    decreases |entries| - n
  {
    if n < |entries| {
      assert entries[..n + 1][..n] == entries[..n];
      FailureIsFinal(entries, n + 1, parseTime, parseFloat, parseInt);
    } else {
      assert entries[..n] == entries;
    }
  }

  /** `w` is printed while `entry` is loaded onto `state`: the entry is a `.jsonl` file that loads, and `w` is one of its merge warnings. */
  ghost predicate EntryWarning(state: (Records, Records), entry: FileEntry, parseTime: string -> Option<int>, w: Warning)
    requires Sourced(state.0)
  {
    && Extension(entry.name) == ".jsonl"
    && JsonlRecords(entry.lines, parseTime).Some?
    && FileWarning(state.0, JsonlRecords(entry.lines, parseTime).value, entry.name, w)
  }

  /**
   * `w` is printed at entry `i` of the listing: the entries before it load, and `w` is a
   * warning of entry `i` against the dictionary they leave.
   */
  ghost predicate DirectoryWarning(entries: seq<FileEntry>, i: int, parseTime: string -> Option<int>,
                                   parseFloat: string -> Option<real>, parseInt: string -> Option<int>, w: Warning)
  {
    && 0 <= i < |entries|
    && DirectoryRecords(entries[..i], parseTime, parseFloat, parseInt).Some?
    && EntryWarning(DirectoryRecords(entries[..i], parseTime, parseFloat, parseInt).value, entries[i], parseTime, w)
  }

  /**
   * Loading the same file twice changes nothing: with keys not yet seen, the second copy's
   * records match the stored ones apart from `file_source`, so the first copy's records,
   * `file_source` included, are kept and no key raises.
   */
  lemma SameFileTwice(jsonl: Records, file: Records, first: string, second: string)
    requires Sourced(jsonl) && jsonl.Keys !! file.Keys
    requires forall k :: k in file ==> HasTotals(file[k]) && FileSource !in file[k]
    ensures MergeAll(jsonl, file, first).Some?
    ensures MergeAll(MergeAll(jsonl, file, first).value, file, second) == MergeAll(jsonl, file, first)
  {
    var once := MergeAll(jsonl, file, first).value;
    forall k | k in file
      ensures MergeRecord(k, once[k], file[k], second) == Ok(once[k])
    {
      assert once[k] == file[k][FileSource := Str(first)];
      SameRecordTwice(k, file[k], first, second);
    }
    var twice := MergeAll(once, file, second).value;
    SameMap(twice, once);
  }

  /** The record-level step of SameFileTwice: a stored record and its own second copy agree. */
  lemma SameRecordTwice(key: string, rec: JsonObject, first: string, second: string)
    requires HasTotals(rec) && FileSource !in rec
    ensures MergeRecord(key, rec[FileSource := Str(first)], rec, second) == Ok(rec[FileSource := Str(first)])
  {
    var stored := rec[FileSource := Str(first)];
    assert Total(stored, "task_total_time") == Total(rec, "task_total_time");
    assert Total(stored, "km_pull_total_time") == Total(rec, "km_pull_total_time");
    assert stored - {FileSource} == rec;
    ObjEqReflexive(rec);
  }

  /** A `.jsonl` entry that loads: Step merges its records into the JSONL dictionary. */
  lemma StepJsonl(state: (Records, Records), entry: FileEntry, file: Records, parseTime: string -> Option<int>,
                  parseFloat: string -> Option<real>, parseInt: string -> Option<int>)
    requires Sourced(state.0) && Extension(entry.name) == ".jsonl" && JsonlRecords(entry.lines, parseTime) == Some(file)
    ensures Step(state, entry, parseTime, parseFloat, parseInt) ==
              if MergeAll(state.0, file, entry.name).None? then None else Some((MergeAll(state.0, file, entry.name).value, state.1))
  {
  }

  /** Merging a file with a single key: stored with its `file_source` when new, reconciled otherwise. */
  lemma MergeOne(jsonl: Records, key: string, rec: JsonObject, filename: string)
    requires Sourced(jsonl)
    ensures key !in jsonl ==> MergeAll(jsonl, map[key := rec], filename) == Some(jsonl[key := rec[FileSource := Str(filename)]])
    ensures key in jsonl ==>
              MergeAll(jsonl, map[key := rec], filename) ==
                if MergeRecord(key, jsonl[key], rec, filename).Err? then None
                else Some(jsonl[key := MergeRecord(key, jsonl[key], rec, filename).value])
  {
    var file := map[key := rec];
    if MergeAll(jsonl, file, filename).Some? {
      var m := MergeAll(jsonl, file, filename).value;
      var v := if key in jsonl then MergeRecord(key, jsonl[key], rec, filename).value else rec[FileSource := Str(filename)];
      SameMap(m, jsonl[key := v]);
    }
  }

  /** The record-level steps of PlainThenListsConflict: the list is added, then the second copy conflicts. */
  lemma PlainThenListsRecords(key: string, plain: JsonObject, list: JsonObject, p: string, s1: string, s2: string)
    requires HasTotals(plain) && HasTotals(list) && FileSource !in plain && FileSource !in list
    requires StateTransitions !in plain && StateTransitions in list && "task_grade" in plain && "task_grade" !in list
    ensures var a := plain[FileSource := Str(p)];
            && MergeRecord(key, a, list, s1) == Ok(a[StateTransitions := list[StateTransitions]])
            && MergeRecord(key, a[StateTransitions := list[StateTransitions]], list, s2).Err?
  {
    var a := plain[FileSource := Str(p)];
    assert Total(a, "task_total_time") == Total(plain, "task_total_time");
    assert Total(a, "km_pull_total_time") == Total(plain, "km_pull_total_time");
    var b := a[StateTransitions := list[StateTransitions]];
    assert Total(b, "task_total_time") == Total(plain, "task_total_time");
    assert Total(b, "km_pull_total_time") == Total(plain, "km_pull_total_time");
    assert "task_grade" in b - {FileSource};
  }

  /** The record-level steps of ListsThenPlainMerge: the copies agree, then the plain record takes the list. */
  lemma ListsThenPlainRecords(key: string, plain: JsonObject, list: JsonObject, p: string, s1: string, s2: string)
    requires HasTotals(plain) && HasTotals(list) && FileSource !in plain && FileSource !in list
    requires StateTransitions !in plain && StateTransitions in list
    ensures var c := list[FileSource := Str(s1)];
            && MergeRecord(key, c, list, s2) == Ok(c)
            && MergeRecord(key, c, plain, p) == Ok(plain[StateTransitions := list[StateTransitions]][FileSource := Str(p)])
  {
    var c := list[FileSource := Str(s1)];
    assert Total(c, "task_total_time") == Total(list, "task_total_time");
    assert Total(c, "km_pull_total_time") == Total(list, "km_pull_total_time");
    assert c - {FileSource} == list;
    ObjEqReflexive(list);
  }

  /** The JSONL dictionary after merging already loaded files in order, or None where a key raises. */
  ghost function MergedFiles(files: seq<(string, Records)>): (r: Option<Records>)
    ensures r.Some? ==> Sourced(r.value)
    decreases |files|
  {
    if files == [] then Some(map[])
    else
      match MergedFiles(files[..|files| - 1])
      case None => None
      case Some(jsonl) => MergeAll(jsonl, files[|files| - 1].1, files[|files| - 1].0)
  }

  /** The entry is a `.jsonl` file named `file.0` that loads to the records `file.1`. */
  ghost predicate LoadsAs(entry: FileEntry, file: (string, Records), parseTime: string -> Option<int>) {
    entry.name == file.0 && Extension(entry.name) == ".jsonl" && JsonlRecords(entry.lines, parseTime) == Some(file.1)
  }

  /** The outcome of merging the files, in the form DirectoryRecords returns it. */
  ghost function MergedListing(files: seq<(string, Records)>): Option<(Records, Records)> {
    if MergedFiles(files).None? then None else Some((MergedFiles(files).value, map[]))
  }

  /** The entries are `.jsonl` files that load, one to one and in order, to the files. */
  ghost predicate AllLoad(entries: seq<FileEntry>, files: seq<(string, Records)>, parseTime: string -> Option<int>)
    decreases |entries|
  {
    && |entries| == |files|
    && (entries != [] ==>
          && AllLoad(entries[..|entries| - 1], files[..|files| - 1], parseTime)
          && LoadsAs(entries[|entries| - 1], files[|files| - 1], parseTime))
  }

  /**
   * A listing of `.jsonl` files that all load: load_directory holds the merge of their
   * records in the listing's order, and an empty metadata dictionary.
   */
  lemma {:induction false} JsonlListing(entries: seq<FileEntry>, files: seq<(string, Records)>,
                                        parseTime: string -> Option<int>, parseFloat: string -> Option<real>,
                                        parseInt: string -> Option<int>)
    requires AllLoad(entries, files, parseTime)
    ensures DirectoryRecords(entries, parseTime, parseFloat, parseInt) == MergedListing(files)
    decreases |entries|
  {
    if entries != [] {
      var n := |entries| - 1;
      JsonlListing(entries[..n], files[..n], parseTime, parseFloat, parseInt);
      var before := MergedFiles(files[..n]);
      if before.Some? {
        StepJsonl((before.value, map[]), entries[n], files[n].1, parseTime, parseFloat, parseInt);
      }
    }
  }

  /**
   * When three files share a key, the listing order decides whether load_directory raises.
   * A Subject-Task record (with a grade) merged before two copies of a State-Transition
   * record is first given their list; the second copy is then compared with the combined
   * record, which has the grade, and the merge raises.
   */
  lemma PlainThenListsConflict(key: string, plain: JsonObject, list: JsonObject, p: string, s1: string, s2: string)
    requires HasTotals(plain) && HasTotals(list) && FileSource !in plain && FileSource !in list
    requires StateTransitions !in plain && StateTransitions in list && "task_grade" in plain && "task_grade" !in list
    ensures MergedFiles([(p, map[key := plain]), (s1, map[key := list]), (s2, map[key := list])]).None?
  {
    var files := [(p, map[key := plain]), (s1, map[key := list]), (s2, map[key := list])];
    assert files[..0] == [] && files[..1][..0] == [] && files[..2][..1] == files[..1];
    var empty: Records := map[];
    MergeOne(empty, key, plain, p);
    var a := empty[key := plain[FileSource := Str(p)]];
    assert MergedFiles(files[..1]) == Some(a);
    PlainThenListsRecords(key, plain, list, p, s1, s2);
    MergeOne(a, key, list, s1);
    var b := a[key := a[key][StateTransitions := list[StateTransitions]]];
    assert MergedFiles(files[..2]) == Some(b);
    MergeOne(b, key, list, s2);
  }

  /**
   * The same three files with the Subject-Task record merged last: the two copies agree,
   * then the Subject-Task record takes the list and names its own file.
   */
  lemma ListsThenPlainMerge(key: string, plain: JsonObject, list: JsonObject, p: string, s1: string, s2: string)
    requires HasTotals(plain) && HasTotals(list) && FileSource !in plain && FileSource !in list
    requires StateTransitions !in plain && StateTransitions in list
    ensures MergedFiles([(s1, map[key := list]), (s2, map[key := list]), (p, map[key := plain])]) ==
              Some(map[key := plain[StateTransitions := list[StateTransitions]][FileSource := Str(p)]])
  {
    var files := [(s1, map[key := list]), (s2, map[key := list]), (p, map[key := plain])];
    assert files[..0] == [] && files[..1][..0] == [] && files[..2][..1] == files[..1];
    var empty: Records := map[];
    MergeOne(empty, key, list, s1);
    var c := empty[key := list[FileSource := Str(s1)]];
    assert MergedFiles(files[..1]) == Some(c);
    ListsThenPlainRecords(key, plain, list, p, s1, s2);
    MergeOne(c, key, list, s2);
    assert c[key := c[key]] == c;
    assert MergedFiles(files[..2]) == Some(c);
    MergeOne(c, key, plain, p);
    assert c[key := plain[StateTransitions := list[StateTransitions]][FileSource := Str(p)]]
        == map[key := plain[StateTransitions := list[StateTransitions]][FileSource := Str(p)]];
  }

  /** Prefixes of short sequence displays, stated once so the listing proofs stay small. */
  lemma SinglePrefix<T>(x0: T, x1: T)
    ensures [x0][..0] == [] && [x0, x1][..1] == [x0]
  {
  }

  lemma PairPrefix<T>(x0: T, x1: T, x2: T)
    ensures [x0, x1, x2][..2] == [x0, x1]
  {
  }

  /** Two entries that load. */
  lemma AllLoadTwo(e0: FileEntry, e1: FileEntry, f0: (string, Records), f1: (string, Records), parseTime: string -> Option<int>)
    requires LoadsAs(e0, f0, parseTime) && LoadsAs(e1, f1, parseTime)
    ensures AllLoad([e0, e1], [f0, f1], parseTime)
  {
    SinglePrefix(e0, e1);
    SinglePrefix(f0, f1);
    assert AllLoad([e0], [f0], parseTime);
  }

  /** Three entries that load, in the form JsonlListing takes them. */
  lemma AllLoadThree(e0: FileEntry, e1: FileEntry, e2: FileEntry, f0: (string, Records), f1: (string, Records),
                     f2: (string, Records), parseTime: string -> Option<int>)
    requires LoadsAs(e0, f0, parseTime) && LoadsAs(e1, f1, parseTime) && LoadsAs(e2, f2, parseTime)
    ensures AllLoad([e0, e1, e2], [f0, f1, f2], parseTime)
  {
    AllLoadTwo(e0, e1, f0, f1, parseTime);
    PairPrefix(e0, e1, e2);
    PairPrefix(f0, f1, f2);
  }

  /**
   * PlainThenListsConflict as a listing: with the Subject-Task file listed before the two
   * State-Transition files, load_directory raises.
   */
  lemma ListingPlainFirstRaises(key: string, plain: JsonObject, list: JsonObject, p: FileEntry, s1: FileEntry, s2: FileEntry,
                                parseTime: string -> Option<int>, parseFloat: string -> Option<real>, parseInt: string -> Option<int>)
    requires HasTotals(plain) && HasTotals(list) && FileSource !in plain && FileSource !in list
    requires StateTransitions !in plain && StateTransitions in list && "task_grade" in plain && "task_grade" !in list
    requires LoadsAs(p, (p.name, map[key := plain]), parseTime)
    requires LoadsAs(s1, (s1.name, map[key := list]), parseTime) && LoadsAs(s2, (s2.name, map[key := list]), parseTime)
    ensures DirectoryRecords([p, s1, s2], parseTime, parseFloat, parseInt).None?
  {
    var P, S, S2 := (p.name, map[key := plain]), (s1.name, map[key := list]), (s2.name, map[key := list]);
    PlainThenListsConflict(key, plain, list, p.name, s1.name, s2.name);
    AllLoadThree(p, s1, s2, P, S, S2, parseTime);
    JsonlListing([p, s1, s2], [P, S, S2], parseTime, parseFloat, parseInt);
  }

  /**
   * ListsThenPlainMerge as a listing: the same three files with the Subject-Task file listed
   * last load, and the key holds the Subject-Task record with the list.
   */
  lemma ListingPlainLastLoads(key: string, plain: JsonObject, list: JsonObject, p: FileEntry, s1: FileEntry, s2: FileEntry,
                              parseTime: string -> Option<int>, parseFloat: string -> Option<real>, parseInt: string -> Option<int>)
    requires HasTotals(plain) && HasTotals(list) && FileSource !in plain && FileSource !in list
    requires StateTransitions !in plain && StateTransitions in list
    requires LoadsAs(p, (p.name, map[key := plain]), parseTime)
    requires LoadsAs(s1, (s1.name, map[key := list]), parseTime) && LoadsAs(s2, (s2.name, map[key := list]), parseTime)
    ensures DirectoryRecords([s1, s2, p], parseTime, parseFloat, parseInt) ==
              Some((map[key := plain[StateTransitions := list[StateTransitions]][FileSource := Str(p.name)]], map[]))
  {
    var P, S, S2 := (p.name, map[key := plain]), (s1.name, map[key := list]), (s2.name, map[key := list]);
    ListsThenPlainMerge(key, plain, list, p.name, s1.name, s2.name);
    AllLoadThree(s1, s2, p, S, S2, P, parseTime);
    JsonlListing([s1, s2, p], [S, S2, P], parseTime, parseFloat, parseInt);
  }

  /** A `.json` file (not `task_metadata.csv`) leaves both dictionaries as they were. */
  lemma JsonFileIgnored(state: (Records, Records), stem: string, lines: seq<Value>, rows: seq<seq<string>>,
                        parseTime: string -> Option<int>, parseFloat: string -> Option<real>, parseInt: string -> Option<int>)
    requires Sourced(state.0)
    ensures Step(state, FileEntry(stem + ".json", lines, rows), parseTime, parseFloat, parseInt) == Some(state)
  {
    JsonIsNotJsonl(stem);
    var name := stem + ".json";
    assert name[|name| - 1] != MetadataFileName[|MetadataFileName| - 1];
  }

  /**
   * load_directory over a listing. Warnings printed before a failure are returned with it;
   * on success every warning of every loaded `.jsonl` file is returned. Their order, which
   * follows the dictionaries' key order, is left open.
   */
  method LoadDirectory(entries: seq<FileEntry>, parseTime: string -> Option<int>,
                       parseFloat: string -> Option<real>, parseInt: string -> Option<int>)
    returns (r: Result<(Records, Records), LoadError>, warnings: seq<Warning>)
    ensures r.Ok? <==> DirectoryRecords(entries, parseTime, parseFloat, parseInt).Some?
    ensures r.Ok? ==> r.value == DirectoryRecords(entries, parseTime, parseFloat, parseInt).value
    ensures forall w :: w in warnings ==> Abs(w.recorded - w.found) > TimeDifferenceThreshold
    ensures WarningsFrom(entries, |entries|, parseTime, parseFloat, parseInt, warnings)
    ensures r.Ok? ==> WarningsOf(entries, |entries|, parseTime, parseFloat, parseInt, warnings)
  {
    var jsonl: Records := map[];
    var metadata: Records := map[];
    warnings := [];
    for i := 0 to |entries|
      invariant DirectoryRecords(entries[..i], parseTime, parseFloat, parseInt) == Some((jsonl, metadata))
      invariant Sourced(jsonl)
      invariant forall w :: w in warnings ==> Abs(w.recorded - w.found) > TimeDifferenceThreshold
      invariant WarningsFrom(entries, i, parseTime, parseFloat, parseInt, warnings)
      invariant WarningsOf(entries, i, parseTime, parseFloat, parseInt, warnings)
    {
      var loaded, ws := LoadEntry(jsonl, metadata, entries[i], parseTime, parseFloat, parseInt);
      WarnedAt(entries, i, parseTime, parseFloat, parseInt, jsonl, metadata, warnings, ws);
      warnings := warnings + ws;
      DirectoryStep(entries, i, parseTime, parseFloat, parseInt);
      if loaded.Err? {
        FailureIsFinal(entries, i + 1, parseTime, parseFloat, parseInt);
        WarningsFromMore(entries, i + 1, |entries|, parseTime, parseFloat, parseInt, warnings);
        return Err(loaded.error), warnings;
      }
      jsonl, metadata := loaded.value.0, loaded.value.1;
    }
    assert entries[..|entries|] == entries;
    r := Ok((jsonl, metadata));
  }

  /** Every warning in `warnings` is printed at one of the first `n` entries of the listing. */
  ghost predicate WarningsFrom(entries: seq<FileEntry>, n: int, parseTime: string -> Option<int>,
                               parseFloat: string -> Option<real>, parseInt: string -> Option<int>, warnings: seq<Warning>)
  {
    forall w :: w in warnings ==> exists i :: i < n && DirectoryWarning(entries, i, parseTime, parseFloat, parseInt, w)
  }

  /** Every warning printed at one of the first `n` entries of the listing is in `warnings`. */
  ghost predicate WarningsOf(entries: seq<FileEntry>, n: int, parseTime: string -> Option<int>,
                             parseFloat: string -> Option<real>, parseInt: string -> Option<int>, warnings: seq<Warning>)
  {
    forall i, w :: i < n && DirectoryWarning(entries, i, parseTime, parseFloat, parseInt, w) ==> w in warnings
  }

  /** Appending the warnings of entry `i` extends both directions from the first `i` entries to the first `i + 1`. */
  lemma WarnedAt(entries: seq<FileEntry>, i: nat, parseTime: string -> Option<int>,
                 parseFloat: string -> Option<real>, parseInt: string -> Option<int>,
                 jsonl: Records, metadata: Records, warnings: seq<Warning>, ws: seq<Warning>)
    requires i < |entries| && Sourced(jsonl)
    requires DirectoryRecords(entries[..i], parseTime, parseFloat, parseInt) == Some((jsonl, metadata))
    requires WarningsFrom(entries, i, parseTime, parseFloat, parseInt, warnings)
    requires WarningsOf(entries, i, parseTime, parseFloat, parseInt, warnings)
    requires forall w :: w in ws ==> EntryWarning((jsonl, metadata), entries[i], parseTime, w)
    ensures WarningsFrom(entries, i + 1, parseTime, parseFloat, parseInt, warnings + ws)
    ensures (forall w :: EntryWarning((jsonl, metadata), entries[i], parseTime, w) ==> w in ws) ==>
              WarningsOf(entries, i + 1, parseTime, parseFloat, parseInt, warnings + ws)
  {
    forall w | w in warnings + ws
      ensures exists j :: j < i + 1 && DirectoryWarning(entries, j, parseTime, parseFloat, parseInt, w)
    {
      if w in ws {
        assert DirectoryWarning(entries, i, parseTime, parseFloat, parseInt, w);
      } else {
        assert w in warnings;
      }
    }
  }

  /** A warning printed within the first `n` entries is printed within the first `m >= n`. */
  lemma WarningsFromMore(entries: seq<FileEntry>, n: int, m: int, parseTime: string -> Option<int>,
                         parseFloat: string -> Option<real>, parseInt: string -> Option<int>, warnings: seq<Warning>)
    requires n <= m && WarningsFrom(entries, n, parseTime, parseFloat, parseInt, warnings)
    ensures WarningsFrom(entries, m, parseTime, parseFloat, parseInt, warnings)
  {
  }

  /** A `.jsonl` file: load_jsonl_file, then the merge of its records. */
  method LoadAndMerge(jsonl: Records, lines: seq<Value>, filename: string, parseTime: string -> Option<int>)
    returns (r: Result<Records, LoadError>, warnings: seq<Warning>)
    requires Sourced(jsonl)
    ensures r.Ok? <==> JsonlRecords(lines, parseTime).Some? && MergeAll(jsonl, JsonlRecords(lines, parseTime).value, filename).Some?
    ensures r.Ok? ==> r.value == MergeAll(jsonl, JsonlRecords(lines, parseTime).value, filename).value
    ensures forall w :: w in warnings ==> Abs(w.recorded - w.found) > TimeDifferenceThreshold
    ensures forall w :: w in warnings ==>
              JsonlRecords(lines, parseTime).Some? && FileWarning(jsonl, JsonlRecords(lines, parseTime).value, filename, w)
    ensures r.Ok? ==> forall w :: FileWarning(jsonl, JsonlRecords(lines, parseTime).value, filename, w) ==> w in warnings
  {
    var loaded := LoadJsonlFile(lines, parseTime);
    if loaded.Err? {
      return Err(loaded.error), [];
    }
    r, warnings := MergeFile(jsonl, loaded.value, filename);
  }

  /** One file of the listing, dispatched on its name. */
  method LoadEntry(jsonl: Records, metadata: Records, entry: FileEntry, parseTime: string -> Option<int>,
                   parseFloat: string -> Option<real>, parseInt: string -> Option<int>)
    returns (r: Result<(Records, Records), LoadError>, warnings: seq<Warning>)
    requires Sourced(jsonl)
    ensures r.Ok? <==> Step((jsonl, metadata), entry, parseTime, parseFloat, parseInt).Some?
    ensures r.Ok? ==> r.value == Step((jsonl, metadata), entry, parseTime, parseFloat, parseInt).value
    ensures forall w :: w in warnings ==> Abs(w.recorded - w.found) > TimeDifferenceThreshold
    ensures forall w :: w in warnings ==> EntryWarning((jsonl, metadata), entry, parseTime, w)
    ensures r.Ok? ==> forall w :: EntryWarning((jsonl, metadata), entry, parseTime, w) ==> w in warnings
  {
    warnings := [];
    if Extension(entry.name) == ".jsonl" {
      var merged;
      merged, warnings := LoadAndMerge(jsonl, entry.lines, entry.name, parseTime);
      if merged.Err? {
        return Err(merged.error), warnings;
      }
      r := Ok((merged.value, metadata));
    } else if entry.name == MetadataFileName {
      var loaded := LoadCsvFile(entry.rows, parseFloat, parseInt);
      if loaded.Err? {
        return Err(loaded.error), warnings;
      }
      r := Ok((jsonl, metadata + loaded.value));
    } else {
      r := Ok((jsonl, metadata));
    }
  }
}
