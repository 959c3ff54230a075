/** The request handling of the Python API (api/ml_server.py) for /predict.

    A request body is a JSON object, seen here as a map from keys to raw JSON
    values. Before pydantic validates it against `StudentFeatures`, the
    `normalize_inputs` hook rewrites it in place: raw study hours and travel
    minutes become tiers 1-4, and bounded fields are clamped with Python's
    `min`/`max`. Comparing a string with a number raises `TypeError`, which
    escapes pydantic and becomes a 500 response. Validation then applies the
    `Field` bounds and `Literal` choices, and the handler turns the RL model's
    score into a label, a message and a confidence. */
module MlServer {
  import opened Wrappers
  import Json
  import Strings
  import RlModel

  type Body = map<string, Json.Value>

  // ---------------------------------------------------------------------
  // Python's min and max on numbers
  // ---------------------------------------------------------------------

  /** `min(v, cap)`: Python returns the first argument unless the second is
      strictly smaller, so an in-range value keeps its own type. */
  function PyMin(v: Json.Value, cap: int): (r: Json.Value)
    requires v.IsNumber()
    ensures r.IsNumber() && r.Num() <= cap as real
    ensures r.Num() == if v.Num() <= cap as real then v.Num() else cap as real
  {
    if (cap as real) < v.Num() then Json.Int(cap) else v
  }

  /** `max(lo, v)`: the literal `lo` unless `v` is strictly larger. */
  function PyMax(lo: int, v: Json.Value): (r: Json.Value)
    requires v.IsNumber()
    ensures r.IsNumber() && r.Num() >= lo as real
    ensures r.Num() == if v.Num() >= lo as real then v.Num() else lo as real
  {
    if v.Num() > lo as real then v else Json.Int(lo)
  }

  // ---------------------------------------------------------------------
  // `normalize_inputs`, one field at a time
  // ---------------------------------------------------------------------

  /** Raw weekly study hours onto tiers: below 2, up to 5, up to 10, above. */
  function StudyTimeBucket(hours: real): int {
    if hours < 2.0 then 1 else if hours <= 5.0 then 2 else if hours <= 10.0 then 3 else 4
  }

  /** Raw travel minutes onto tiers: below 15, up to 30, up to 60, above. */
  function TravelTimeBucket(minutes: real): int {
    if minutes < 15.0 then 1 else if minutes <= 30.0 then 2 else if minutes <= 60.0 then 3 else 4
  }

  /** Both bucketings land in 1..4 and never decrease as the input grows;
      the study-time bucketing is not idempotent, since tier 4 read as hours
      falls in tier 2. */
  lemma BucketsInRangeAndMonotone(x: real, y: real)
    ensures 1 <= StudyTimeBucket(x) <= 4 && 1 <= TravelTimeBucket(x) <= 4
    ensures x <= y ==> StudyTimeBucket(x) <= StudyTimeBucket(y)
    ensures x <= y ==> TravelTimeBucket(x) <= TravelTimeBucket(y)
    ensures StudyTimeBucket(4.0) == 2 && StudyTimeBucket(StudyTimeBucket(4.0) as real) == 2
    ensures TravelTimeBucket(4.0) == 1
  {
  }

  const ZeroToFourFields: seq<string> := ["Medu", "Fedu"]
  const OneToFiveFields: seq<string> := ["famrel", "freetime", "goout", "Dalc", "Walc", "health"]

  /** Number of fields `normalize_inputs` visits. */
  const FieldCount := 15

  /** The fields in the order `normalize_inputs` visits them. */
  function FieldAt(k: nat): string
    requires k < FieldCount
  {
    if k < 7 then
      match k
      case 0 => "studytime"
      case 1 => "traveltime"
      case 2 => "failures"
      case 3 => "absences"
      case 4 => "G1"
      case 5 => "G2"
      case _ => "age"
    else if k < 9 then ZeroToFourFields[k - 7]
    else OneToFiveFields[k - 9]
  }

  /** The position of a key in that order, or `FieldCount` for other keys. */
  function FieldIndex(key: string): (k: nat)
    ensures k <= FieldCount
  {
    if key == "studytime" then 0
    else if key == "traveltime" then 1
    else if key == "failures" then 2
    else if key == "absences" then 3
    else if key == "G1" then 4
    else if key == "G2" then 5
    else if key == "age" then 6
    else if key == "Medu" then 7
    else if key == "Fedu" then 8
    else if key == "famrel" then 9
    else if key == "freetime" then 10
    else if key == "goout" then 11
    else if key == "Dalc" then 12
    else if key == "Walc" then 13
    else if key == "health" then 14
    else FieldCount
  }

  /** Every field is visited once: the order holds no key twice. */
  lemma FieldIndexOfFieldAt(k: nat)
    requires k < FieldCount
    ensures FieldIndex(FieldAt(k)) == k
  {
  }

  lemma FieldAtOfFieldIndex(key: string)
    requires FieldIndex(key) < FieldCount
    ensures FieldAt(FieldIndex(key)) == key
  {
  }

  /** What `normalize_inputs` writes for a numeric value of a visited field. */
  function NormalizedValue(field: string, v: Json.Value): (r: Json.Value)
    requires v.IsNumber()
    ensures r.IsNumber()
  {
    if field == "studytime" then Json.Int(StudyTimeBucket(v.Num()))
    else if field == "traveltime" then Json.Int(TravelTimeBucket(v.Num()))
    else if field == "failures" then PyMin(v, 4)
    else if field == "absences" then PyMin(v, 93)
    else if field == "G1" || field == "G2" then PyMin(v, 20)
    else if field == "age" then PyMax(15, PyMin(v, 22))
    else if field in ZeroToFourFields then PyMax(0, PyMin(v, 4))
    else if field in OneToFiveFields then PyMax(1, PyMin(v, 5))
    else v
  }

  /** The clamps keep each field in its range, and clamping twice is
      clamping once. */
  lemma ClampsBoundedAndIdempotent(field: string, v: Json.Value)
    requires v.IsNumber() && 2 <= FieldIndex(field) < FieldCount
    ensures var r := NormalizedValue(field, v);
            NormalizedValue(field, r) == r
    ensures field == "failures" ==> NormalizedValue(field, v).Num() <= 4.0
    ensures field == "absences" ==> NormalizedValue(field, v).Num() <= 93.0
    ensures field == "G1" || field == "G2" ==> NormalizedValue(field, v).Num() <= 20.0
    ensures field == "age" ==> 15.0 <= NormalizedValue(field, v).Num() <= 22.0
    ensures field in ZeroToFourFields ==> 0.0 <= NormalizedValue(field, v).Num() <= 4.0
    ensures field in OneToFiveFields ==> 1.0 <= NormalizedValue(field, v).Num() <= 5.0
  {
  }

  /** The caps on counts and grades only bound from above: a negative value
      passes through unchanged. */
  lemma CapsKeepNegatives(field: string, v: Json.Value)
    requires v.IsNumber() && v.Num() < 0.0
    requires field == "failures" || field == "absences" || field == "G1" || field == "G2"
    ensures NormalizedValue(field, v) == v
  {
  }

  /** One block of `normalize_inputs`: an absent or `None` field is skipped,
      a string raises `TypeError` (named by its field), a number is
      rewritten. */
  function Step(d: Body, field: string): Result<Body, string> {
    if field in d && !d[field].Null? then
      if d[field].IsNumber() then Success(d[field := NormalizedValue(field, d[field])])
      else Failure(field)
    else Success(d)
  }

  /** The blocks from position `lo` on, stopping at the first error. */
  function Steps(d: Body, lo: nat): Result<Body, string>
    requires lo <= FieldCount
    decreases FieldCount - lo
  {
    if lo == FieldCount then Success(d)
    else
      match Step(d, FieldAt(lo))
      case Failure(e) => Failure(e)
      case Success(d1) => Steps(d1, lo + 1)
  }

  function Normalize(d: Body): Result<Body, string> {
    Steps(d, 0)
  }

  /** A visited field whose value Python cannot compare with a number. */
  predicate Offends(d: Body, k: nat)
    requires k < FieldCount
  {
    FieldAt(k) in d && d[FieldAt(k)].Str?
  }

  /** The value a key ends up with when the blocks from `lo` on all run. */
  function NormalizedFrom(key: string, v: Json.Value, lo: nat): Json.Value {
    if lo <= FieldIndex(key) < FieldCount && v.IsNumber() then NormalizedValue(key, v) else v
  }

  /** The whole of `normalize_inputs`: it fails exactly when some visited
      field holds a string, naming the first such field in visiting order;
      otherwise it keeps the same keys, rewrites each numeric visited field
      by its rule, and leaves `None` values and every other key alone. */
  lemma NormalizeContract(d: Body)
    ensures Normalize(d).Failure? <==> exists k :: 0 <= k < FieldCount && Offends(d, k)
    ensures Normalize(d).Failure? ==>
              exists k :: 0 <= k < FieldCount && Offends(d, k) && Normalize(d).error == FieldAt(k) &&
                forall j :: 0 <= j < k ==> !Offends(d, j)
    ensures Normalize(d).Success? ==>
              Normalize(d).value.Keys == d.Keys &&
              forall key :: key in d ==> Normalize(d).value[key] == NormalizedFrom(key, d[key], 0)
  {
    StepsFailure(d, 0);
    if Normalize(d).Success? {
      StepsSuccess(d, 0);
    }
  }

  lemma {:induction false} StepsFailure(d: Body, lo: nat)
    requires lo <= FieldCount
    ensures Steps(d, lo).Failure? <==> exists k :: lo <= k < FieldCount && Offends(d, k)
    ensures Steps(d, lo).Failure? ==>
              exists k :: lo <= k < FieldCount && Offends(d, k) && Steps(d, lo).error == FieldAt(k) &&
                forall j :: lo <= j < k ==> !Offends(d, j)
    decreases FieldCount - lo
  {
    if lo < FieldCount {
      match Step(d, FieldAt(lo))
      case Failure(e) =>
        assert Offends(d, lo);
      case Success(d1) =>
        StepKeepsOtherFields(d, lo, d1);
        StepsFailure(d1, lo + 1);
    }
  }

  lemma {:induction false} StepsSuccess(d: Body, lo: nat)
    requires lo <= FieldCount && Steps(d, lo).Success?
    ensures Steps(d, lo).value.Keys == d.Keys
    ensures forall key :: key in d ==> Steps(d, lo).value[key] == NormalizedFrom(key, d[key], lo)
    decreases FieldCount - lo
  {
    if lo < FieldCount {
      var d1 := Step(d, FieldAt(lo)).value;
      StepKeepsOtherFields(d, lo, d1);
      StepsSuccess(d1, lo + 1);
      var r := Steps(d1, lo + 1).value;
      forall key | key in d
        ensures r[key] == NormalizedFrom(key, d[key], lo)
      {
        if key == FieldAt(lo) {
          FieldIndexOfFieldAt(lo);
          assert r[key] == d1[key];
        } else {
          if FieldIndex(key) == lo {
            FieldAtOfFieldIndex(key);
          }
          assert d1[key] == d[key];
        }
      }
    }
  }

  /** A successful step changes only its own field, so later fields offend
      exactly when they did before. */
  lemma StepKeepsOtherFields(d: Body, lo: nat, d1: Body)
    requires lo < FieldCount && Step(d, FieldAt(lo)) == Success(d1)
    ensures d1.Keys == d.Keys
    ensures forall key :: key in d && key != FieldAt(lo) ==> d1[key] == d[key]
    ensures !Offends(d, lo)
    ensures forall k :: lo < k < FieldCount ==> (Offends(d1, k) <==> Offends(d, k))
    ensures FieldAt(lo) in d ==> d1[FieldAt(lo)] == NormalizedFrom(FieldAt(lo), d[FieldAt(lo)], lo)
  {
    FieldIndexOfFieldAt(lo);
    forall k | lo < k < FieldCount
      ensures Offends(d1, k) <==> Offends(d, k)
    {
      FieldIndexOfFieldAt(k);
    }
  }

  /** One pass of the loops over the 0-4 and 1-5 field lists. */
  lemma ListedFieldStep(data: Body, k: nat)
    requires 7 <= k < FieldCount
    ensures FieldAt(k) == if k < 9 then ZeroToFourFields[k - 7] else OneToFiveFields[k - 9]
    ensures var field, lo, hi := FieldAt(k), if k < 9 then 0 else 1, if k < 9 then 4 else 5;
            Steps(data, k) ==
              if field in data && !data[field].Null? then
                if data[field].IsNumber() then Steps(data[field := PyMax(lo, PyMin(data[field], hi))], k + 1)
                else Failure(field)
              else Steps(data, k + 1)
  {
    var field := FieldAt(k);
    if field in data && data[field].IsNumber() {
      ListedFieldRule(k, data[field]);
    }
  }

  lemma ListedFieldRule(k: nat, v: Json.Value)
    requires 7 <= k < FieldCount && v.IsNumber()
    ensures NormalizedValue(FieldAt(k), v) ==
              if k < 9 then PyMax(0, PyMin(v, 4)) else PyMax(1, PyMin(v, 5))
  {
    assert FieldAt(k) in ZeroToFourFields || FieldAt(k) in OneToFiveFields;
  }

  /** `normalize_inputs` as the code runs it: the body dict rewritten field
      by field, the lists of 0-4 and 1-5 fields walked by loops. */
  method NormalizeInputs(body: Body) returns (r: Result<Body, string>)
    ensures r == Normalize(body)
  {
    var data: Body;
    r := NormalizeTimes(body);
    if r.Failure? {
      return;
    }
    r := CapCounts(r.value);
    if r.Failure? {
      return;
    }
    r := CapGradesClampAge(r.value);
    if r.Failure? {
      return;
    }
    data := r.value;
    for i := 0 to |ZeroToFourFields|
      invariant Steps(data, 7 + i) == Normalize(body)
    {
      ListedFieldStep(data, 7 + i);
      var field := ZeroToFourFields[i];
      if field in data && !data[field].Null? {
        if !data[field].IsNumber() {
          return Failure(field);
        }
        data := data[field := PyMax(0, PyMin(data[field], 4))];
      }
    }
    for i := 0 to |OneToFiveFields|
      invariant Steps(data, 9 + i) == Normalize(body)
    {
      ListedFieldStep(data, 9 + i);
      var field := OneToFiveFields[i];
      if field in data && !data[field].Null? {
        if !data[field].IsNumber() {
          return Failure(field);
        }
        data := data[field := PyMax(1, PyMin(data[field], 5))];
      }
    }
    r := Success(data);
  }

  /** The study-time and travel-time blocks. */
  method NormalizeTimes(body: Body) returns (r: Result<Body, string>)
    ensures r.Failure? ==> r == Normalize(body)
    ensures r.Success? ==> Steps(r.value, 2) == Normalize(body)
  {
    var data := body;
    if "studytime" in data && !data["studytime"].Null? {
      var val := data["studytime"];
      if !val.IsNumber() {
        return Failure("studytime");
      }
      if val.Num() < 2.0 {
        data := data["studytime" := Json.Int(1)];
      } else if val.Num() <= 5.0 {
        data := data["studytime" := Json.Int(2)];
      } else if val.Num() <= 10.0 {
        data := data["studytime" := Json.Int(3)];
      } else {
        data := data["studytime" := Json.Int(4)];
      }
    }
    assert Steps(data, 1) == Normalize(body);
    if "traveltime" in data && !data["traveltime"].Null? {
      var val := data["traveltime"];
      if !val.IsNumber() {
        return Failure("traveltime");
      }
      if val.Num() < 15.0 {
        data := data["traveltime" := Json.Int(1)];
      } else if val.Num() <= 30.0 {
        data := data["traveltime" := Json.Int(2)];
      } else if val.Num() <= 60.0 {
        data := data["traveltime" := Json.Int(3)];
      } else {
        data := data["traveltime" := Json.Int(4)];
      }
    }
    r := Success(data);
  }

  /** The caps on failures and absences. */
  method CapCounts(start: Body) returns (r: Result<Body, string>)
    ensures r.Failure? ==> r == Steps(start, 2)
    ensures r.Success? ==> Steps(r.value, 4) == Steps(start, 2)
  {
    var data := start;
    if "failures" in data && !data["failures"].Null? {
      if !data["failures"].IsNumber() {
        return Failure("failures");
      }
      data := data["failures" := PyMin(data["failures"], 4)];
    }
    assert Steps(data, 3) == Steps(start, 2);
    if "absences" in data && !data["absences"].Null? {
      if !data["absences"].IsNumber() {
        return Failure("absences");
      }
      data := data["absences" := PyMin(data["absences"], 93)];
    }
    r := Success(data);
  }

  /** The caps on both grades, then the age clamp. */
  method CapGradesClampAge(start: Body) returns (r: Result<Body, string>)
    ensures r.Failure? ==> r == Steps(start, 4)
    ensures r.Success? ==> Steps(r.value, 7) == Steps(start, 4)
  {
    var data := start;
    if "G1" in data && !data["G1"].Null? {
      if !data["G1"].IsNumber() {
        return Failure("G1");
      }
      data := data["G1" := PyMin(data["G1"], 20)];
    }
    assert Steps(data, 5) == Steps(start, 4);
    if "G2" in data && !data["G2"].Null? {
      if !data["G2"].IsNumber() {
        return Failure("G2");
      }
      data := data["G2" := PyMin(data["G2"], 20)];
    }
    assert Steps(data, 6) == Steps(start, 4);
    if "age" in data && !data["age"].Null? {
      if !data["age"].IsNumber() {
        return Failure("age");
      }
      data := data["age" := PyMax(15, PyMin(data["age"], 22))];
    }
    r := Success(data);
  }

  // ---------------------------------------------------------------------
  // Validation against `StudentFeatures`
  // ---------------------------------------------------------------------

  /** A declared field: one of a set of strings, or an integer with a lower
      and an optional upper bound. */
  datatype FieldKind =
    | OneOf(options: seq<string>)
    | Whole(lo: int, hi: Option<int>)

  /** The declared fields of `StudentFeatures`, in declaration order. */
  const DeclaredFields: seq<string> := [
    "sex", "address", "famsize", "Pstatus", "Mjob", "Fjob",
    "age", "Medu", "Fedu", "traveltime", "studytime", "failures",
    "famrel", "freetime", "goout", "Dalc", "Walc", "health", "absences", "G1", "G2",
    "schoolsup", "famsup", "paid", "activities", "nursery", "higher", "internet", "romantic"]

  const Jobs: seq<string> := ["teacher", "health", "services", "at_home", "other"]
  const YesNo: seq<string> := ["yes", "no"]

  /** The declared type and bounds of a field; `None` for keys the model
      does not declare, which validation ignores. Every field that
      `normalize_inputs` visits is a bounded integer. */
  function KindOf(name: string): Option<FieldKind> {
    var k := FieldIndex(name);
    if k < FieldCount then Some(BoundsAt(k)) else ChoiceKind(name)
  }

  /** The `Field` bounds of the visited fields, by visiting position. */
  function BoundsAt(k: nat): (kind: FieldKind)
    requires k < FieldCount
    ensures kind.Whole?
  {
    match k
    case 0 => Whole(0, Some(4))   // studytime
    case 1 => Whole(0, Some(4))   // traveltime
    case 2 => Whole(0, None)      // failures
    case 3 => Whole(0, None)      // absences
    case 4 => Whole(0, None)      // G1
    case 5 => Whole(0, None)      // G2
    case 6 => Whole(15, Some(22)) // age
    case 7 => Whole(0, Some(4))   // Medu
    case 8 => Whole(0, Some(4))   // Fedu
    case _ => Whole(1, Some(5))   // famrel, freetime, goout, Dalc, Walc, health
  }

  /** The `Literal` fields. */
  function ChoiceKind(name: string): Option<FieldKind> {
    match name
    case "sex" => Some(OneOf(["M", "F"]))
    case "address" => Some(OneOf(["U", "R"]))
    case "famsize" => Some(OneOf(["LE3", "GT3"]))
    case "Pstatus" => Some(OneOf(["T", "A"]))
    case "Mjob" => Some(OneOf(Jobs))
    case "Fjob" => Some(OneOf(Jobs))
    case "schoolsup" => Some(OneOf(YesNo))
    case "famsup" => Some(OneOf(YesNo))
    case "paid" => Some(OneOf(YesNo))
    case "activities" => Some(OneOf(YesNo))
    case "nursery" => Some(OneOf(YesNo))
    case "higher" => Some(OneOf(YesNo))
    case "internet" => Some(OneOf(YesNo))
    case "romantic" => Some(OneOf(YesNo))
    case _ => None
  }

  /** The schema declares exactly the listed fields. */
  lemma DeclaredFieldsAreTheSchema(name: string)
    ensures KindOf(name).Some? <==> name in DeclaredFields
  {
  }

  predicate InBounds(kind: FieldKind, n: int)
    requires kind.Whole?
  {
    kind.lo <= n && (kind.hi.None? || n <= kind.hi.value)
  }

  /** Whether a value passes a field's check: `None` always; a string when
      it is one of the choices; an integer, or a float with no fractional
      part, when it lies in the bounds. */
  predicate Accepts(kind: FieldKind, v: Json.Value) {
    match v
    case Null => true
    case Str(s) => kind.OneOf? && s in kind.options
    case Int(i) => kind.Whole? && InBounds(kind, i)
    case Float(x, _) => kind.Whole? && x == x.Floor as real && InBounds(kind, x.Floor)
  }

  /** The value the validated model holds: an integral float becomes an int. */
  function Coerce(kind: FieldKind, v: Json.Value): Json.Value {
    if kind.Whole? && v.Float? then Json.Int(v.x.Floor) else v
  }

  predicate Rejects(d: Body, name: string) {
    name in d && KindOf(name).Some? && !Accepts(KindOf(name).value, d[name])
  }

  /** The fields that fail their check, in the order given. */
  function ValidationErrors(d: Body, fields: seq<string>): seq<string> {
    if fields == [] then []
    else (if Rejects(d, fields[0]) then [fields[0]] else []) + ValidationErrors(d, fields[1..])
  }

  lemma {:induction false} ValidationErrorsMembers(d: Body, fields: seq<string>, name: string)
    ensures name in ValidationErrors(d, fields) <==> name in fields && Rejects(d, name)
  {
    if fields != [] {
      ValidationErrorsMembers(d, fields[1..], name);
      assert fields == [fields[0]] + fields[1..];
    }
  }

  /** `model_dump()` without its `None` entries: the declared fields that
      were given a value. */
  function FeaturesDict(d: Body): Body {
    map name | name in d && KindOf(name).Some? && !d[name].Null? :: Coerce(KindOf(name).value, d[name])
  }

  /** Validation succeeds exactly when no declared field fails its check,
      and then yields the features dict; otherwise it lists the failing
      fields in declaration order. */
  function Validate(d: Body): (r: Result<Body, seq<string>>)
    ensures r.Success? <==> forall name :: name in d && KindOf(name).Some? ==> Accepts(KindOf(name).value, d[name])
    ensures r.Failure? ==> r.error != [] && forall name :: name in r.error <==> Rejects(d, name)
    ensures r.Success? ==> r.value == FeaturesDict(d)
  {
    var errors := ValidationErrors(d, DeclaredFields);
    forall name
      ensures name in errors <==> Rejects(d, name)
    {
      ValidationErrorsMembers(d, DeclaredFields, name);
      DeclaredFieldsAreTheSchema(name);
    }
    if errors == [] then
      assert forall name :: name in d && KindOf(name).Some? ==> !Rejects(d, name);
      Success(FeaturesDict(d))
    else
      assert errors[0] in errors;
      Failure(errors)
  }

  /** The features dict is empty exactly when every declared field is absent
      or `None`. */
  lemma FeaturesDictEmpty(d: Body)
    ensures |FeaturesDict(d)| == 0 <==> forall name :: name in d && KindOf(name).Some? ==> d[name].Null?
  {
    if exists name :: name in d && KindOf(name).Some? && !d[name].Null? {
      var name :| name in d && KindOf(name).Some? && !d[name].Null?;
      assert name in FeaturesDict(d);
    } else {
      assert FeaturesDict(d) == map[];
    }
  }

  /** A negative count or grade survives its cap and is then rejected by
      the `ge=0` bound. */
  lemma NegativeCountsRejected(body: Body, name: string)
    requires name == "failures" || name == "absences" || name == "G1" || name == "G2"
    requires name in body && body[name].IsNumber() && body[name].Num() < 0.0
    requires Normalize(body).Success?
    ensures name in Normalize(body).value && Normalize(body).value[name] == body[name]
    ensures Validate(Normalize(body).value).Failure?
    ensures name in Validate(Normalize(body).value).error
  {
    var v := body[name];
    StepsSuccess(body, 0);
    CapsKeepNegatives(name, v);
    var r := Normalize(body).value;
    assert r[name] == NormalizedFrom(name, v, 0) == v;
    assert KindOf(name) == Some(Whole(0, None));
    assert Rejects(r, name) by {
      if v.Float? {
        assert v.x.Floor < 0;
      }
    }
  }

  /** After normalisation a study or travel time, if given, is a tier that
      passes its 0..4 bound. */
  lemma NormalizedTimesPassBounds(body: Body, name: string)
    requires name == "studytime" || name == "traveltime"
    requires Normalize(body).Success?
    ensures !Rejects(Normalize(body).value, name)
  {
    StepsSuccess(body, 0);
    StepsFailure(body, 0);
    var r := Normalize(body).value;
    assert KindOf(name) == Some(Whole(0, Some(4)));
    if name in body {
      var v := body[name];
      assert r[name] == NormalizedFrom(name, v, 0);
      assert !Offends(body, FieldIndex(name));
      if v.IsNumber() {
        BucketsInRangeAndMonotone(v.Num(), v.Num());
        assert r[name] == NormalizedValue(name, v);
      }
    }
  }

  // ---------------------------------------------------------------------
  // The /predict handler
  // ---------------------------------------------------------------------

  /** The message for a score (1 is best, 10 worst). */
  function ScoreMessage(score: int): string {
    if score <= 2 then "You're doing excellent! Keep up the great work."
    else if score <= 4 then "You're on a good track. Stay consistent with your efforts."
    else if score <= 6 then
      "You're doing okay, but there's room for improvement. Consider studying more or getting additional support."
    else if score <= 8 then "This is concerning. You should significantly increase your study time and seek help."
    else "Critical situation! Immediate action needed - talk to teachers, get tutoring, and reassess your study habits."
  }

  /** The confidence set beside each message: high at both ends of the
      scale, medium in the middle. */
  function ScoreConfidence(score: int): (c: Confidence)
    ensures c == Medium <==> 5 <= score <= 8
  {
    if score <= 2 then High
    else if score <= 4 then High
    else if score <= 6 then Medium
    else if score <= 8 then Medium
    else High
  }

  /** The confidence indicator, shown as "High" or "Medium". */
  datatype Confidence = High | Medium

  datatype ErrorDetail = Message(text: string) | InvalidFields(fields: seq<string>)
  datatype HttpError = HttpError(status: int, detail: ErrorDetail)
  datatype ScoreResponse = ScoreResponse(score: int, scoreLabel: string, message: string, confidence: Confidence)

  const ServerError := HttpError(500, Message("Internal Server Error"))
  const NotTrainedError := HttpError(400, Message("Model not trained yet. Call POST /train first."))
  const NoFeaturesError := HttpError(400, Message("At least one feature must be provided"))

  /** POST /predict: normalise the body (a string where a number is compared
      is a server error), validate it (422 with the failing fields), refuse
      an untrained model and an empty feature set (400), then score the
      features with the RL adjustment on; `gradePrediction` is what the base
      model predicts for them. */
  method Predict(model: RlModel.AmICookedRLModel, body: Body, gradePrediction: real)
    returns (r: Result<ScoreResponse, HttpError>)
    ensures Normalize(body).Failure? ==> r == Failure(ServerError)
    ensures Normalize(body).Success? && Validate(Normalize(body).value).Failure? ==>
              r == Failure(HttpError(422, InvalidFields(Validate(Normalize(body).value).error)))
    ensures Normalize(body).Success? && Validate(Normalize(body).value).Success? ==>
              var features := Validate(Normalize(body).value).value;
              && (!model.isTrained ==> r == Failure(NotTrainedError))
              && (model.isTrained && |features| == 0 ==> r == Failure(NoFeaturesError))
              && (model.isTrained && |features| > 0 ==>
                    && r.Success?
                    && 1 <= r.value.score <= 10
                    && model.rlLayer.IsGreedyAdjustment(r.value.score, RlModel.BaseScore(gradePrediction), features)
                    && r.value.scoreLabel == RlModel.GetScoreLabel(r.value.score)
                    && r.value.message == ScoreMessage(r.value.score)
                    && r.value.confidence == ScoreConfidence(r.value.score))
  {
    var normalized := NormalizeInputs(body);
    if normalized.Failure? {
      return Failure(ServerError);
    }
    var validated := Validate(normalized.value);
    if validated.Failure? {
      return Failure(HttpError(422, InvalidFields(validated.error)));
    }
    if !model.isTrained {
      return Failure(NotTrainedError);
    }
    var featuresDict := validated.value;
    if |featuresDict| == 0 {
      return Failure(NoFeaturesError);
    }
    var predicted := model.PredictScore(featuresDict, gradePrediction, true);
    var score := predicted.value;
    var scoreLabel := RlModel.GetScoreLabel(score);
    var message := ScoreMessage(score);
    var confidence := ScoreConfidence(score);
    r := Success(ScoreResponse(score, scoreLabel, message, confidence));
  }

  /** A body whose values are all `None` passes normalisation and validation
      unchanged and leaves no feature, so a trained model answers 400. */
  lemma AllNoneBodyHasNoFeatures(body: Body)
    requires forall name :: name in body ==> body[name].Null?
    ensures Normalize(body) == Success(body)
    ensures Validate(body).Success? && |Validate(body).value| == 0
  {
    StepsFailure(body, 0);
    assert forall k :: 0 <= k < FieldCount ==> !Offends(body, k);
    StepsSuccess(body, 0);
    var r := Normalize(body).value;
    assert forall name :: name in r ==> r[name] == body[name];
    assert r == body;
    assert FeaturesDict(body) == map[];
  }

  // ---------------------------------------------------------------------
  // The /feedback handler and the state it teaches
  // ---------------------------------------------------------------------

  /** The features dict /predict scores for a body, when it accepts it. */
  function PredictFeatures(body: Body): Option<Body> {
    match Normalize(body)
    case Failure(_) => None
    case Success(normalized) =>
      match Validate(normalized)
      case Failure(_) => None
      case Success(features) => Some(features)
  }

  /** As written, /feedback hands the request's raw features to
      `apply_feedback`, which keys the Q-table on them. */
  function FeedbackStateAsWritten(rawFeatures: Body, baseScore: int): string {
    RlModel.StateKey(baseScore, rawFeatures)
  }

  /** The features feedback should be keyed on: those /predict scored for
      the same body, or the raw ones when /predict would refuse the body. */
  function FeedbackFeatures(rawFeatures: Body): (features: Body)
    ensures PredictFeatures(rawFeatures).Some? ==> features == PredictFeatures(rawFeatures).value
  {
    match PredictFeatures(rawFeatures)
    case Some(features) => features
    case None => rawFeatures
  }

  lemma DropCommonPrefix(p: string, x: string, y: string)
    requires p + x == p + y
    ensures x == y
  {
    assert x == (p + x)[|p|..];
    assert y == (p + y)[|p|..];
  }

  /** A body a client sends to both endpoints: 4 study hours, no failures. */
  const FourHoursNoFailures: Body := map["studytime" := Json.Int(4), "failures" := Json.Int(0)]

  /** The same body after normalisation: 4 hours is study tier 2. */
  const TierTwoNoFailures: Body := map["studytime" := Json.Int(2), "failures" := Json.Int(0)]

  lemma FourHoursNormalizes()
    ensures Normalize(FourHoursNoFailures).Success?
  {
    var body := FourHoursNoFailures;
    StepsFailure(body, 0);
    assert forall key :: key in body ==> !body[key].Str?;
    assert forall k :: 0 <= k < FieldCount ==> !Offends(body, k);
  }

  lemma FourHoursFieldRules()
    ensures NormalizedFrom("studytime", Json.Int(4), 0) == Json.Int(2)
    ensures NormalizedFrom("failures", Json.Int(0), 0) == Json.Int(0)
  {
    assert FieldIndex("studytime") == 0;
    assert FieldIndex("failures") == 2;
  }

  lemma FourHoursNormalized()
    ensures Normalize(FourHoursNoFailures) == Success(TierTwoNoFailures)
  {
    var body := FourHoursNoFailures;
    FourHoursNormalizes();
    StepsSuccess(body, 0);
    FourHoursFieldRules();
    var r := Normalize(body).value;
    assert r.Keys == body.Keys == TierTwoNoFailures.Keys;
    assert r["studytime"] == NormalizedFrom("studytime", Json.Int(4), 0);
    assert r["failures"] == NormalizedFrom("failures", Json.Int(0), 0);
    assert forall key :: key in r ==> r[key] == TierTwoNoFailures[key];
    assert r == TierTwoNoFailures;
  }

  lemma TierTwoAccepted()
    ensures PredictFeatures(FourHoursNoFailures) == Some(TierTwoNoFailures)
  {
    FourHoursNormalized();
    var d := TierTwoNoFailures;
    assert KindOf("studytime") == Some(Whole(0, Some(4)));
    assert KindOf("failures") == Some(Whole(0, None));
    forall name | name in d
      ensures KindOf(name).Some? && Accepts(KindOf(name).value, d[name])
      ensures Coerce(KindOf(name).value, d[name]) == d[name]
    {
      if name != "studytime" {
        assert name == "failures";
      }
    }
    assert FeaturesDict(d).Keys == d.Keys;
    assert FeaturesDict(d) == d;
  }

  lemma SuffixesDiffer(baseScore: int)
    ensures RlModel.StateKey(baseScore, FourHoursNoFailures) != RlModel.StateKey(baseScore, TierTwoNoFailures)
  {
    assert RlModel.FeatureSuffix(FourHoursNoFailures) == "_st4_f0";
    assert RlModel.FeatureSuffix(TierTwoNoFailures) == "_st2_f0";
    if RlModel.StateKey(baseScore, FourHoursNoFailures) == RlModel.StateKey(baseScore, TierTwoNoFailures) {
      DropCommonPrefix("score_" + Strings.IntToString(baseScore), "_st4_f0", "_st2_f0");
    }
  }

  /** The feedback endpoint as written misses the state /predict reads: for
      the body above /predict scores study tier 2 at base score
      `predictedBase`, while the feedback is filed under the raw 4 at base
      score `feedbackBase`, which `apply_feedback` recomputes from the raw
      features and so may differ. Whatever the two base scores, the keys
      differ, and "higher" feedback leaves every Q-value of the predicted
      state as it was. */
  lemma FeedbackAsWrittenMissesPrediction(table: RlModel.QTable, predictedBase: int, feedbackBase: int,
                                          alpha: real, gamma: real)
    ensures PredictFeatures(FourHoursNoFailures) == Some(TierTwoNoFailures)
    ensures var predicted := RlModel.StateKey(predictedBase, TierTwoNoFailures);
            && FeedbackStateAsWritten(FourHoursNoFailures, feedbackBase) != predicted
            && forall a :: RlModel.Lookup(RlModel.FeedbackTable(table, feedbackBase, "higher", FourHoursNoFailures, alpha, gamma),
                                          predicted, a) == RlModel.Lookup(table, predicted, a)
  {
    TierTwoAccepted();
    var predicted := RlModel.StateKey(predictedBase, TierTwoNoFailures);
    var filed := FeedbackStateAsWritten(FourHoursNoFailures, feedbackBase);
    if predictedBase == feedbackBase {
      SuffixesDiffer(predictedBase);
    } else if filed == predicted {
      RlModel.StateKeyDeterminesScore(feedbackBase, FourHoursNoFailures, predictedBase, TierTwoNoFailures);
    }
    assert filed != predicted;
    var learned := RlModel.FeedbackTable(table, feedbackBase, "higher", FourHoursNoFailures, alpha, gamma);
    forall a
      ensures RlModel.Lookup(learned, predicted, a) == RlModel.Lookup(table, predicted, a)
    {
      if RlModel.Lookup(learned, predicted, a) != RlModel.Lookup(table, predicted, a) {
        RlModel.FeedbackTouchesOptimalAction(table, feedbackBase, "higher", FourHoursNoFailures, alpha, gamma, predicted, a);
      }
    }
  }

  /** Keyed on the features /predict scored, feedback on a fresh state
      reaches the next prediction: for the same body and base score, the
      greedy score afterwards is the base score moved as the feedback asked
      (+1 for "higher", -1 for "lower", 0 for "true"), clipped to 1..10. */
  lemma FeedbackReachesNextPrediction(body: Body, layer: RlModel.RLAdjustmentLayer, table: RlModel.QTable,
                                      baseScore: int, feedback: string, adjusted: int)
    requires PredictFeatures(body).Some?
    requires RlModel.IsValidFeedback(feedback) && RlModel.NonNegativeTable(table)
    requires RlModel.StateKey(baseScore, PredictFeatures(body).value) !in table
    requires 0.0 < layer.learningRate <= 1.0 && layer.discountFactor >= 0.0
    requires layer.qTable == RlModel.FeedbackTable(table, baseScore, feedback, FeedbackFeatures(body),
                                                   layer.learningRate, layer.discountFactor)
    requires layer.IsGreedyAdjustment(adjusted, baseScore, PredictFeatures(body).value)
    ensures adjusted == RlModel.Clip(baseScore + RlModel.FeedbackStep(feedback).0, 1, 10)
  {
    RlModel.GreedyAfterFeedback(layer, table, baseScore, feedback, PredictFeatures(body).value, adjusted);
  }

  datatype FeedbackRequest = FeedbackRequest(features: Body, predictedScore: int, feedback: string)

  datatype FeedbackResponse = FeedbackResponse(
    message: string, feedbackApplied: bool, currentAccuracy: real, totalFeedbackCount: int,
    avgReward: real, rlEpisodes: int)

  /** The request fields that fail `FeedbackRequest`'s checks. */
  function FeedbackRequestErrors(request: FeedbackRequest): (errors: seq<string>)
    ensures errors == [] <==> 1 <= request.predictedScore <= 10 && RlModel.IsValidFeedback(request.feedback)
  {
    (if 1 <= request.predictedScore <= 10 then [] else ["predicted_score"])
    + (if RlModel.IsValidFeedback(request.feedback) then [] else ["feedback"])
  }

  /** POST /feedback, with the learned state keyed on the features /predict
      scores: a malformed request is refused with 422 and an untrained model
      with 400, changing nothing; otherwise the model records the feedback
      and learns from it, and the response reports the new statistics. */
  method SubmitFeedback(model: RlModel.AmICookedRLModel, request: FeedbackRequest, gradePrediction: real)
    returns (r: Result<FeedbackResponse, HttpError>)
    requires model.Valid()
    modifies model, model.rlLayer
    ensures model.Valid()
    ensures FeedbackRequestErrors(request) != [] ==>
              r == Failure(HttpError(422, InvalidFields(FeedbackRequestErrors(request))))
              && unchanged(model) && unchanged(model.rlLayer)
    ensures FeedbackRequestErrors(request) == [] && !old(model.isTrained) ==>
              r == Failure(NotTrainedError) && unchanged(model) && unchanged(model.rlLayer)
    ensures FeedbackRequestErrors(request) == [] && old(model.isTrained) ==>
              var features := FeedbackFeatures(request.features);
              && r.Success?
              && model.feedbackHistory ==
                   old(model.feedbackHistory) + [RlModel.RLFeedback(features, request.predictedScore, request.feedback)]
              && model.totalCorrections == old(model.totalCorrections) + 1
              && model.correctPredictions ==
                   old(model.correctPredictions) + (if request.feedback == "true" then 1 else 0)
              && model.rlLayer.qTable ==
                   RlModel.FeedbackTable(old(model.rlLayer.qTable), RlModel.BaseScore(gradePrediction), request.feedback,
                                         features, model.rlLayer.learningRate, model.rlLayer.discountFactor)
              && model.isTrained
              && model.rlLayer.episodeRewards ==
                   old(model.rlLayer.episodeRewards) + RlModel.FeedbackRewards(request.feedback)
              && r.value.totalFeedbackCount == |model.feedbackHistory|
              && r.value.currentAccuracy == model.GetStats().accuracy
              && r.value.rlEpisodes == |model.rlLayer.episodeRewards|
              && r.value.avgReward == RlModel.Mean(model.rlLayer.episodeRewards)
  {
    var errors := FeedbackRequestErrors(request);
    if errors != [] {
      return Failure(HttpError(422, InvalidFields(errors)));
    }
    if !model.isTrained {
      return Failure(NotTrainedError);
    }
    var features := FeedbackFeatures(request.features);
    var applied := model.ApplyFeedback(features, request.predictedScore, request.feedback, gradePrediction);
    var stats := model.GetStats();
    r := Success(FeedbackResponse(
      "Feedback '" + request.feedback + "' applied! Model learned from this interaction.",
      true, stats.accuracy, stats.totalFeedback, stats.avgRlReward, stats.rlEpisodes));
  }
}
