/**
 * Parsed JSON values as the ingestion engine sees them after `json.loads`, plus the two
 * Python behaviours the engine relies on: `isinstance` against the schema's type unions
 * (where `bool` is a subclass of `int`) and `==` (where `1 == 1.0 == True` and dictionaries
 * compare without regard to key order).
 */
module Json {
  import opened Wrappers

  datatype Value =
    | Null
    | Bool(b: bool)
    | Int(i: int)
    | Real(r: real)
    | Str(s: string)
    | List(items: seq<Value>)
    | Object(fields: map<string, Value>)
      /** A `datetime` produced by parsing an ISO-8601 string, in microseconds since the epoch. */
    | Time(micros: int)

  /** One JSON object, i.e. one line of a JSONL file or one record. */
  type JsonObject = map<string, Value>

  /** The numeric reading Python gives a value: `bool` and `int` are numbers. */
  function AsNumber(v: Value): (r: Option<real>)
    ensures r.Some? <==> (v.Bool? || v.Int? || v.Real?)
  {
    match v
    case Bool(b) => Some(if b then 1.0 else 0.0)
    case Int(i) => Some(i as real)
    case Real(x) => Some(x)
    case _ => None
  }

  /** Python's `==` on JSON-derived values. */
  predicate PyEq(a: Value, b: Value)
    decreases a, 1
  {
    match a
    case Null => b.Null?
    case Bool(_) => AsNumber(b).Some? && AsNumber(a) == AsNumber(b)
    case Int(_) => AsNumber(b).Some? && AsNumber(a) == AsNumber(b)
    case Real(_) => AsNumber(b).Some? && AsNumber(a) == AsNumber(b)
    case Str(s) => b.Str? && b.s == s
    case List(xs) =>
      b.List? && |xs| == |b.items| && forall j :: 0 <= j < |xs| ==> PyEq(xs[j], b.items[j])
    case Object(m) => b.Object? && ObjEq(m, b.fields)
    case Time(t) => b.Time? && b.micros == t
  }

  /** Python's `==` on two dictionaries: the same keys, and equal values under each. */
  predicate ObjEq(a: JsonObject, b: JsonObject)
    decreases Object(a), 0
  {
    a.Keys == b.Keys && forall k :: k in a ==> PyEq(a[k], b[k])
  }

  lemma {:induction false} PyEqReflexive(a: Value)
    ensures PyEq(a, a)
    decreases a
  {
    match a
    case List(xs) =>
      forall j | 0 <= j < |xs| ensures PyEq(xs[j], xs[j]) { PyEqReflexive(xs[j]); }
    case Object(m) =>
      forall k | k in m ensures PyEq(m[k], m[k]) { PyEqReflexive(m[k]); }
    case _ =>
  }

  lemma {:induction false} PyEqSymmetric(a: Value, b: Value)
    requires PyEq(a, b)
    ensures PyEq(b, a)
    decreases a
  {
    match a
    case List(xs) =>
      forall j | 0 <= j < |xs| ensures PyEq(b.items[j], xs[j]) { PyEqSymmetric(xs[j], b.items[j]); }
    case Object(m) =>
      forall k | k in b.fields ensures PyEq(b.fields[k], m[k]) { PyEqSymmetric(m[k], b.fields[k]); }
    case _ =>
  }

  lemma ObjEqReflexive(a: JsonObject)
    ensures ObjEq(a, a)
  {
    forall k | k in a ensures PyEq(a[k], a[k]) { PyEqReflexive(a[k]); }
  }

  lemma ObjEqSymmetric(a: JsonObject, b: JsonObject)
    requires ObjEq(a, b)
    ensures ObjEq(b, a)
  {
    forall k | k in b ensures PyEq(b[k], a[k]) { PyEqSymmetric(a[k], b[k]); }
  }

  /** The type unions of the two record schemas (`str | int`, `float | int`, ...). */
  datatype PyType =
    | StrOrInt        // str | int
    | FloatOrInt      // float | int
    | StrIntOrFloat   // str | int | float
    | IntType         // int
    | ListType        // list
    | BoolType        // bool
    | DictType        // dict
    | DateTimeType    // datetime

  /** Python's `isinstance(v, t)`; `True` and `False` are instances of `int`. */
  predicate IsInstance(v: Value, t: PyType) {
    match t
    case StrOrInt => v.Str? || v.Int? || v.Bool?
    case FloatOrInt => v.Real? || v.Int? || v.Bool?
    case StrIntOrFloat => v.Str? || v.Int? || v.Real? || v.Bool?
    case IntType => v.Int? || v.Bool?
    case ListType => v.List?
    case BoolType => v.Bool?
    case DictType => v.Object?
    case DateTimeType => v.Time?
  }

  function DigitChar(d: int): char
    requires 0 <= d < 10
  {
    "0123456789"[d]
  }

  function NatToString(n: nat): (s: string)
    ensures |s| > 0 && '_' !in s
    decreases n
  {
    if n < 10 then [DigitChar(n)] else NatToString(n / 10) + [DigitChar(n % 10)]
  }

  /** A value the way an f-string prints it, for the three kinds that can name a session. */
  function Format(v: Value): (s: string)
    requires v.Str? || v.Int? || v.Bool?
    ensures v.Int? ==> '_' !in s
  {
    match v
    case Str(x) => x
    case Int(i) => if i < 0 then "-" + NatToString(-i) else NatToString(i)
    case Bool(b) => if b then "True" else "False"
  }

  /** The session key `f"{subject}_{condition}_{task}"`. */
  function SessionKey(subject: Value, condition: Value, task: Value): (k: string)
    requires subject.Str? || subject.Int? || subject.Bool?
    requires condition.Str? || condition.Int? || condition.Bool?
    requires task.Str? || task.Int? || task.Bool?
  {
    Format(subject) + "_" + Format(condition) + "_" + Format(task)
  }

  lemma UnderscoreEarlier(a: string, b: string, a': string, b': string)
    requires '_' !in a' && |a| < |a'|
    ensures a + "_" + b != a' + "_" + b'
  {
    var x, y := a + "_" + b, a' + "_" + b';
    assert x[|a|] == '_';
    assert y[|a|] == a'[|a|];
  }

  /** Splitting at the first underscore recovers both halves when the first half has none. */
  lemma SplitAtUnderscore(a: string, b: string, a': string, b': string)
    requires '_' !in a && '_' !in a'
    requires a + "_" + b == a' + "_" + b'
    ensures a == a' && b == b'
  {
    var x, y := a + "_" + b, a' + "_" + b';
    if |a| < |a'| {
      UnderscoreEarlier(a, b, a', b');
    } else if |a'| < |a| {
      UnderscoreEarlier(a', b', a, b);
    }
    assert a == x[..|a|] && a' == y[..|a|];
    assert b == x[|a| + 1..] && b' == y[|a| + 1..];
  }

  /** Keys identify sessions as long as subject and condition contain no underscore. */
  lemma SessionKeyInjective(s1: Value, c1: Value, t1: Value, s2: Value, c2: Value, t2: Value)
    requires s1.Str? || s1.Int? || s1.Bool?
    requires c1.Str? || c1.Int? || c1.Bool?
    requires t1.Str? || t1.Int? || t1.Bool?
    requires s2.Str? || s2.Int? || s2.Bool?
    requires c2.Str? || c2.Int? || c2.Bool?
    requires t2.Str? || t2.Int? || t2.Bool?
    requires '_' !in Format(s1) && '_' !in Format(s2) && '_' !in Format(c1) && '_' !in Format(c2)
    requires SessionKey(s1, c1, t1) == SessionKey(s2, c2, t2)
    ensures Format(s1) == Format(s2) && Format(c1) == Format(c2) && Format(t1) == Format(t2)
  {
    var r1, r2 := Format(c1) + "_" + Format(t1), Format(c2) + "_" + Format(t2);
    assert SessionKey(s1, c1, t1) == Format(s1) + "_" + r1;
    assert SessionKey(s2, c2, t2) == Format(s2) + "_" + r2;
    SplitAtUnderscore(Format(s1), r1, Format(s2), r2);
    SplitAtUnderscore(Format(c1), Format(t1), Format(c2), Format(t2));
  }

  /** An underscore in a subject id lets two different sessions share a key. */
  lemma SessionKeyCollision()
    ensures SessionKey(Str("A"), Str("prototype"), Str("baseline_T")) == SessionKey(Str("A_prototype"), Str("baseline"), Str("T"))
  {
  }
}
