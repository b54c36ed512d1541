/**
 * The response schema of the analysis endpoint: the eight keys of an Analysis
 * result, their constraints, and the validator that turns an untrusted JSON
 * value into an Analysis or the set of fields that failed. The validator
 * follows zod's semantics for `z.object` (unknown keys are stripped and every
 * field is checked, so all failures are reported together),
 * `z.string().min(1)`, `z.number().min(0).max(1).optional()` and
 * `z.array(...).default([])`.
 */
module AnalysisSchema {
  import opened Wrappers
  import opened JsonValue

  /** The eight keys of the schema. */
  datatype Field =
    | FlowerName
    | WateringSchedule
    | CareRecommendations
    | HealthAssessment
    | Confidence
    | Issues
    | Tips
    | Sources

  /** The JSON key of each field. */
  function Key(f: Field): (k: string) {
    match f
    case FlowerName => "flower_name"
    case WateringSchedule => "watering_schedule"
    case CareRecommendations => "care_recommendations"
    case HealthAssessment => "health_assessment"
    case Confidence => "confidence"
    case Issues => "issues"
    case Tips => "tips"
    case Sources => "sources"
  }

  const SchemaKeys: set<string> := {
    "flower_name", "watering_schedule", "care_recommendations", "health_assessment",
    "confidence", "issues", "tips", "sources"
  }

  /** The key set of the schema is exactly the set of the fields' keys, and no two fields share a key. */
  lemma SchemaKeysAreFieldKeys()
    ensures forall f :: Key(f) in SchemaKeys
    ensures forall k :: k in SchemaKeys ==> exists f :: Key(f) == k
    ensures forall f, g :: Key(f) == Key(g) ==> f == g
  {
    forall k | k in SchemaKeys ensures exists f :: Key(f) == k {
      if k == "flower_name" { assert Key(FlowerName) == k; }
      else if k == "watering_schedule" { assert Key(WateringSchedule) == k; }
      else if k == "care_recommendations" { assert Key(CareRecommendations) == k; }
      else if k == "health_assessment" { assert Key(HealthAssessment) == k; }
      else if k == "confidence" { assert Key(Confidence) == k; }
      else if k == "issues" { assert Key(Issues) == k; }
      else if k == "tips" { assert Key(Tips) == k; }
      else { assert Key(Sources) == k; }
    }
  }

  /** The four kinds of constraint the schema places on a field. */
  datatype Constraint =
    | RequiredText        // z.string().min(1)
    | OptionalUnitReal    // z.number().min(0).max(1).optional()
    | TextList            // z.array(z.string()).default([])
    | UrlList             // z.array(z.string().url()).default([])

  function ConstraintOf(f: Field): (c: Constraint) {
    match f
    case FlowerName | WateringSchedule | HealthAssessment => RequiredText
    case Confidence => OptionalUnitReal
    case CareRecommendations | Issues | Tips => TextList
    case Sources => UrlList
  }

  /** A validated analysis result. */
  datatype Analysis = Analysis(
    flowerName: string,
    wateringSchedule: string,
    careRecommendations: seq<string>,
    healthAssessment: string,
    confidence: Option<real>,
    issues: seq<string>,
    tips: seq<string>,
    sources: seq<string>)

  /** Why a value was refused: it is not an object, or one of its fields is invalid. */
  datatype Issue = NotAnObject | InvalidField(field: Field)

  /**
   * Whether the member `v` (None when the key is absent) meets constraint `c`.
   * This is the declarative reading of the schema that the validator is proved against.
   */
  ghost predicate Satisfies(c: Constraint, v: Option<Json>, isUrl: string -> bool) {
    match c
    case RequiredText => v.Some? && v.value.JStr? && |v.value.s| >= 1
    case OptionalUnitReal => v.None? || (v.value.JNum? && 0.0 <= v.value.n <= 1.0)
    case TextList =>
      v.None? || (v.value.JArr? && forall i :: 0 <= i < |v.value.items| ==> v.value.items[i].JStr?)
    case UrlList =>
      v.None? ||
      (v.value.JArr? &&
       forall i :: 0 <= i < |v.value.items| ==> v.value.items[i].JStr? && isUrl(v.value.items[i].s))
  }

  /** Whether field `f` of the object `fields` is acceptable. */
  ghost predicate Accepts(fields: map<string, Json>, f: Field, isUrl: string -> bool) {
    Satisfies(ConstraintOf(f), Lookup(fields, Key(f)), isUrl)
  }

  /** The invariant of every validated result. */
  ghost predicate WellFormed(a: Analysis, isUrl: string -> bool) {
    && |a.flowerName| >= 1
    && |a.wateringSchedule| >= 1
    && |a.healthAssessment| >= 1
    && (a.confidence.Some? ==> 0.0 <= a.confidence.value <= 1.0)
    && forall i :: 0 <= i < |a.sources| ==> isUrl(a.sources[i])
  }

  /** A list field carries `xs`: absent and `xs` is empty, or present as exactly those strings in order. */
  ghost predicate CarriesList(v: Option<Json>, xs: seq<string>) {
    if v.None? then xs == [] else v == Some(JArr(Strings(xs)))
  }

  /** The object `fields` carries the values of `a` under the schema's keys (unknown keys are ignored). */
  ghost predicate Carries(fields: map<string, Json>, a: Analysis) {
    && Lookup(fields, "flower_name") == Some(JStr(a.flowerName))
    && Lookup(fields, "watering_schedule") == Some(JStr(a.wateringSchedule))
    && Lookup(fields, "health_assessment") == Some(JStr(a.healthAssessment))
    && (if a.confidence.Some? then Lookup(fields, "confidence") == Some(JNum(a.confidence.value))
        else Lookup(fields, "confidence") == None)
    && CarriesList(Lookup(fields, "care_recommendations"), a.careRecommendations)
    && CarriesList(Lookup(fields, "issues"), a.issues)
    && CarriesList(Lookup(fields, "tips"), a.tips)
    && CarriesList(Lookup(fields, "sources"), a.sources)
  }

  /** The element check of `z.array(z.string())`: any string. */
  function AnyText(s: string): (b: bool) { true }

  /** `z.string().min(1)` on one member. */
  function ParseText(v: Option<Json>): (r: Option<string>)
    ensures r.Some? <==> Satisfies(RequiredText, v, AnyText)
    ensures r.Some? ==> v == Some(JStr(r.value))
  {
    match v
    case Some(JStr(s)) => if |s| >= 1 then Some(s) else None
    case _ => None
  }

  /** `z.number().min(0).max(1).optional()` on one member: Some(None) when the key is absent. */
  function ParseUnitReal(v: Option<Json>): (r: Option<Option<real>>)
    ensures r.Some? <==> Satisfies(OptionalUnitReal, v, AnyText)
    ensures r.Some? ==> if r.value.Some? then v == Some(JNum(r.value.value)) else v == None
  {
    match v
    case None => Some(None)
    case Some(JNum(n)) => if 0.0 <= n <= 1.0 then Some(Some(n)) else None
    case _ => None
  }

  /** The elements of a JSON array, each of which must be a string accepted by `ok`. */
  function ParseElements(items: seq<Json>, ok: string -> bool): (r: Option<seq<string>>)
    ensures r.Some? <==> forall i :: 0 <= i < |items| ==> items[i].JStr? && ok(items[i].s)
    ensures r.Some? ==> Strings(r.value) == items
    decreases |items|
  {
    if items == [] then Some([])
    else if !items[0].JStr? || !ok(items[0].s) then None
    else
      var rest := ParseElements(items[1..], ok);
      assert forall i :: 1 <= i < |items| ==> items[i] == items[1..][i - 1];
      if rest.None? then None
      else
        var r := [items[0].s] + rest.value;
        assert items == [items[0]] + items[1..];
        assert Strings(r) == [items[0]] + Strings(rest.value);
        Some(r)
  }

  /** `z.array(...).default([])` on one member: an absent key yields the empty list. */
  function ParseList(v: Option<Json>, ok: string -> bool): (r: Option<seq<string>>)
    ensures r.Some? <==> v.None? || (v.value.JArr? && forall i :: 0 <= i < |v.value.items| ==> v.value.items[i].JStr? && ok(v.value.items[i].s))
    ensures r.Some? ==> CarriesList(v, r.value)
  {
    match v
    case None => Some([])
    case Some(JArr(items)) => ParseElements(items, ok)
    case _ => None
  }

  /** Whether member `f` of the object passes its check, decided by the field's parser. */
  function FieldValid(o: map<string, Json>, f: Field, isUrl: string -> bool): (b: bool)
    ensures b <==> Accepts(o, f, isUrl)
  {
    MemberValid(ConstraintOf(f), Lookup(o, Key(f)), isUrl)
  }

  /** Whether the parser for constraint `c` accepts the member `v`. */
  function MemberValid(c: Constraint, v: Option<Json>, isUrl: string -> bool): (b: bool)
    ensures b <==> Satisfies(c, v, isUrl)
  {
    match c
    case RequiredText => ParseText(v).Some?
    case OptionalUnitReal => ParseUnitReal(v).Some?
    case TextList => ParseList(v, AnyText).Some?
    case UrlList => ParseList(v, isUrl).Some?
  }

  /** The issue that field `f` contributes: the field itself when it failed, none otherwise. */
  function IssueIf(failed: bool, f: Field): (r: set<Issue>)
    ensures forall g :: InvalidField(g) in r <==> failed && g == f
    ensures NotAnObject !in r
  {
    if failed then {InvalidField(f)} else {}
  }

  /** Every field is checked, so every failing field is reported together. */
  function Failures(o: map<string, Json>, isUrl: string -> bool): (issues: set<Issue>) {
    IssueIf(!FieldValid(o, FlowerName, isUrl), FlowerName) +
    IssueIf(!FieldValid(o, WateringSchedule, isUrl), WateringSchedule) +
    IssueIf(!FieldValid(o, CareRecommendations, isUrl), CareRecommendations) +
    IssueIf(!FieldValid(o, HealthAssessment, isUrl), HealthAssessment) +
    IssueIf(!FieldValid(o, Confidence, isUrl), Confidence) +
    IssueIf(!FieldValid(o, Issues, isUrl), Issues) +
    IssueIf(!FieldValid(o, Tips, isUrl), Tips) +
    IssueIf(!FieldValid(o, Sources, isUrl), Sources)
  }

  lemma FailuresExact(o: map<string, Json>, isUrl: string -> bool)
    ensures NotAnObject !in Failures(o, isUrl)
    ensures forall f :: InvalidField(f) in Failures(o, isUrl) <==> !FieldValid(o, f, isUrl)
  {
    forall f ensures InvalidField(f) in Failures(o, isUrl) <==> !FieldValid(o, f, isUrl) {
      FailureReported(o, f, isUrl);
    }
  }

  lemma FailureReported(o: map<string, Json>, f: Field, isUrl: string -> bool)
    ensures InvalidField(f) in Failures(o, isUrl) <==> !FieldValid(o, f, isUrl)
  {
    match f
    case FlowerName =>
    case WateringSchedule =>
    case CareRecommendations =>
    case HealthAssessment =>
    case Confidence =>
    case Issues =>
    case Tips =>
    case Sources =>
  }

  /** The Analysis built from an object whose every field passed, members of unknown keys dropped. */
  function Build(o: map<string, Json>, isUrl: string -> bool): (a: Analysis)
    requires forall f :: FieldValid(o, f, isUrl)
  {
    assert FieldValid(o, FlowerName, isUrl) && FieldValid(o, WateringSchedule, isUrl);
    assert FieldValid(o, CareRecommendations, isUrl) && FieldValid(o, HealthAssessment, isUrl);
    assert FieldValid(o, Confidence, isUrl) && FieldValid(o, Issues, isUrl);
    assert FieldValid(o, Tips, isUrl) && FieldValid(o, Sources, isUrl);
    Analysis(
      ParseText(Lookup(o, "flower_name")).value,
      ParseText(Lookup(o, "watering_schedule")).value,
      ParseList(Lookup(o, "care_recommendations"), AnyText).value,
      ParseText(Lookup(o, "health_assessment")).value,
      ParseUnitReal(Lookup(o, "confidence")).value,
      ParseList(Lookup(o, "issues"), AnyText).value,
      ParseList(Lookup(o, "tips"), AnyText).value,
      ParseList(Lookup(o, "sources"), isUrl).value)
  }

  /** `AnalysisSchema.safeParse`: the validated Analysis, or every issue found. */
  function Validate(j: Json, isUrl: string -> bool): (r: Result<Analysis, set<Issue>>)
    ensures !j.JObj? ==> r == Err({NotAnObject})
    ensures r.Err? ==> r.error != {}
  {
    match j
    case JObj(o) =>
      var failed := Failures(o, isUrl);
      if failed == {} then
        FailuresExact(o, isUrl);
        Ok(Build(o, isUrl))
      else
        Err(failed)
    case _ => Err({NotAnObject})
  }

  /**
   * Validation of an object succeeds exactly when every field meets its
   * constraint; otherwise the issues name exactly the failing fields.
   */
  lemma ValidateObject(o: map<string, Json>, isUrl: string -> bool)
    ensures Validate(JObj(o), isUrl).Ok? <==> forall f :: Accepts(o, f, isUrl)
    ensures Validate(JObj(o), isUrl).Err? ==>
      && NotAnObject !in Validate(JObj(o), isUrl).error
      && forall f :: InvalidField(f) in Validate(JObj(o), isUrl).error <==> !Accepts(o, f, isUrl)
  {
    ValidateReportsFailures(o, isUrl);
    FailuresExact(o, isUrl);
    if Failures(o, isUrl) != {} {
      var e :| e in Failures(o, isUrl);
      assert !Accepts(o, e.field, isUrl);
    }
  }

  lemma ValidateReportsFailures(o: map<string, Json>, isUrl: string -> bool)
    ensures Validate(JObj(o), isUrl).Ok? <==> Failures(o, isUrl) == {}
    ensures Validate(JObj(o), isUrl).Err? ==> Validate(JObj(o), isUrl).error == Failures(o, isUrl)
  {
  }

  /**
   * A validated result holds exactly the values found under the schema's keys
   * (absent lists become [], an absent confidence stays absent, list order is
   * kept) and meets the result invariant.
   */
  lemma ValidatedCarries(j: Json, isUrl: string -> bool)
    requires Validate(j, isUrl).Ok?
    ensures j.JObj?
    ensures Carries(j.fields, Validate(j, isUrl).value)
    ensures WellFormed(Validate(j, isUrl).value, isUrl)
  {
    var o := j.fields;
    ValidateReportsFailures(o, isUrl);
    FailuresExact(o, isUrl);
    ValidateBuilds(o, isUrl);
    BuildCarries(o, isUrl);
  }

  lemma ValidateBuilds(o: map<string, Json>, isUrl: string -> bool)
    requires forall f :: FieldValid(o, f, isUrl)
    requires Failures(o, isUrl) == {}
    ensures Validate(JObj(o), isUrl) == Ok(Build(o, isUrl))
  {
  }

  lemma BuildCarries(o: map<string, Json>, isUrl: string -> bool)
    requires forall f :: FieldValid(o, f, isUrl)
    ensures Carries(o, Build(o, isUrl))
    ensures WellFormed(Build(o, isUrl), isUrl)
  {
    var a := Build(o, isUrl);
    assert FieldValid(o, FlowerName, isUrl) && FieldValid(o, WateringSchedule, isUrl);
    assert FieldValid(o, CareRecommendations, isUrl) && FieldValid(o, HealthAssessment, isUrl);
    assert FieldValid(o, Confidence, isUrl) && FieldValid(o, Issues, isUrl);
    assert FieldValid(o, Tips, isUrl) && FieldValid(o, Sources, isUrl);
    var sources := Lookup(o, "sources");
    assert CarriesList(sources, a.sources);
    if sources.Some? {
      forall i | 0 <= i < |a.sources| ensures isUrl(a.sources[i]) {
        assert sources.value.items[i] == JStr(a.sources[i]);
      }
    }
  }

  /** The value of a required text field of a result. */
  function TextField(a: Analysis, f: Field): (s: string)
    requires ConstraintOf(f) == RequiredText
  {
    match f
    case FlowerName => a.flowerName
    case WateringSchedule => a.wateringSchedule
    case HealthAssessment => a.healthAssessment
  }

  /** The required text fields: a result exists only if each is a non-empty string, and holds that string. */
  lemma RequiredTextFields(j: Json, f: Field, isUrl: string -> bool)
    requires ConstraintOf(f) == RequiredText
    ensures Validate(j, isUrl).Ok? ==>
      && j.JObj? && Key(f) in j.fields && j.fields[Key(f)].JStr? && |j.fields[Key(f)].s| >= 1
      && TextField(Validate(j, isUrl).value, f) == j.fields[Key(f)].s
    ensures j.JObj? && !(Key(f) in j.fields && j.fields[Key(f)].JStr? && |j.fields[Key(f)].s| >= 1) ==>
      Validate(j, isUrl).Err? && InvalidField(f) in Validate(j, isUrl).error
  {
    if j.JObj? {
      ValidateObject(j.fields, isUrl);
    }
    if Validate(j, isUrl).Ok? {
      ValidatedCarries(j, isUrl);
    }
  }

  /** Absent list fields default to [], and an absent confidence stays absent. */
  lemma AbsentFieldsDefault(o: map<string, Json>, isUrl: string -> bool)
    requires Validate(JObj(o), isUrl).Ok?
    ensures "confidence" !in o ==> Validate(JObj(o), isUrl).value.confidence == None
    ensures "care_recommendations" !in o ==> Validate(JObj(o), isUrl).value.careRecommendations == []
    ensures "issues" !in o ==> Validate(JObj(o), isUrl).value.issues == []
    ensures "tips" !in o ==> Validate(JObj(o), isUrl).value.tips == []
    ensures "sources" !in o ==> Validate(JObj(o), isUrl).value.sources == []
  {
    ValidatedCarries(JObj(o), isUrl);
  }

  /** Confidence is range-checked, never clamped: a number outside [0, 1] is an error. */
  lemma ConfidenceOutOfRange(o: map<string, Json>, c: real, isUrl: string -> bool)
    requires Lookup(o, "confidence") == Some(JNum(c))
    requires c < 0.0 || c > 1.0
    ensures Validate(JObj(o), isUrl).Err?
    ensures InvalidField(Confidence) in Validate(JObj(o), isUrl).error
  {
    ValidateObject(o, isUrl);
  }

  /** The JSON object `Response.json` writes for a result: only the schema's keys, confidence only when present. */
  function Encode(a: Analysis): (j: Json)
    ensures j.JObj? && j.fields.Keys <= SchemaKeys
    ensures Carries(j.fields, a)
  {
    var listed := map[
      "flower_name" := JStr(a.flowerName),
      "watering_schedule" := JStr(a.wateringSchedule),
      "care_recommendations" := JArr(Strings(a.careRecommendations)),
      "health_assessment" := JStr(a.healthAssessment),
      "issues" := JArr(Strings(a.issues)),
      "tips" := JArr(Strings(a.tips)),
      "sources" := JArr(Strings(a.sources))];
    JObj(if a.confidence.Some? then listed["confidence" := JNum(a.confidence.value)] else listed)
  }

  /** An object carries at most one Analysis. */
  lemma CarriesDeterminesResult(o: map<string, Json>, a: Analysis, b: Analysis)
    requires Carries(o, a) && Carries(o, b)
    ensures a == b
  {
    StringsInjective(a.careRecommendations, b.careRecommendations);
    StringsInjective(a.issues, b.issues);
    StringsInjective(a.tips, b.tips);
    StringsInjective(a.sources, b.sources);
  }

  lemma StringsInjective(xs: seq<string>, ys: seq<string>)
    requires Strings(xs) == Strings(ys)
    ensures xs == ys
  {
    assert forall i :: 0 <= i < |xs| ==> xs[i] == Strings(xs)[i].s;
  }

  /** A list member that carries strings of which `ok` accepts each is an accepted member. */
  lemma CarriedListAccepted(v: Option<Json>, xs: seq<string>, ok: string -> bool)
    requires CarriesList(v, xs)
    requires forall i :: 0 <= i < |xs| ==> ok(xs[i])
    ensures v.None? || (v.value.JArr? && forall i :: 0 <= i < |v.value.items| ==> v.value.items[i].JStr? && ok(v.value.items[i].s))
  {
  }

  /** An object that carries a well-formed result is accepted on every field. */
  lemma CarriedAccepted(o: map<string, Json>, a: Analysis, isUrl: string -> bool)
    requires Carries(o, a) && WellFormed(a, isUrl)
    ensures forall f :: Accepts(o, f, isUrl)
  {
    CarriedListAccepted(Lookup(o, "care_recommendations"), a.careRecommendations, AnyText);
    CarriedListAccepted(Lookup(o, "issues"), a.issues, AnyText);
    CarriedListAccepted(Lookup(o, "tips"), a.tips, AnyText);
    CarriedListAccepted(Lookup(o, "sources"), a.sources, isUrl);
    forall f ensures Accepts(o, f, isUrl) {
      match f
      case FlowerName =>
      case WateringSchedule =>
      case CareRecommendations =>
      case HealthAssessment =>
      case Confidence =>
      case Issues =>
      case Tips =>
      case Sources =>
    }
  }

  /** Every well-formed result survives encoding and validation unchanged. */
  lemma EncodeRoundTrip(a: Analysis, isUrl: string -> bool)
    requires WellFormed(a, isUrl)
    ensures Validate(Encode(a), isUrl) == Ok(a)
  {
    var j := Encode(a);
    CarriedAccepted(j.fields, a, isUrl);
    ValidateObject(j.fields, isUrl);
    ValidatedCarries(j, isUrl);
    CarriesDeterminesResult(j.fields, a, Validate(j, isUrl).value);
  }

  /** Validation is idempotent: re-encoding a validated result and validating it again yields the same result. */
  lemma ValidateIdempotent(j: Json, isUrl: string -> bool)
    requires Validate(j, isUrl).Ok?
    ensures Validate(Encode(Validate(j, isUrl).value), isUrl) == Validate(j, isUrl)
  {
    ValidatedCarries(j, isUrl);
    EncodeRoundTrip(Validate(j, isUrl).value, isUrl);
  }

  /** Two objects that agree on the schema's keys. */
  ghost predicate SameOnSchema(o: map<string, Json>, o': map<string, Json>) {
    forall k :: k in SchemaKeys ==> Lookup(o, k) == Lookup(o', k)
  }

  lemma FailuresOnSchemaKeys(o: map<string, Json>, o': map<string, Json>, isUrl: string -> bool)
    requires SameOnSchema(o, o')
    ensures Failures(o, isUrl) == Failures(o', isUrl)
  {
    FieldsOnSchemaKeys(o, o', isUrl);
    FailuresOfAgreeingFields(o, o', isUrl);
  }

  lemma FieldsOnSchemaKeys(o: map<string, Json>, o': map<string, Json>, isUrl: string -> bool)
    requires SameOnSchema(o, o')
    ensures forall f :: FieldValid(o, f, isUrl) == FieldValid(o', f, isUrl)
  {
    forall f ensures FieldValid(o, f, isUrl) == FieldValid(o', f, isUrl) {
      assert Key(f) in SchemaKeys;
    }
  }

  lemma FailuresOfAgreeingFields(o: map<string, Json>, o': map<string, Json>, isUrl: string -> bool)
    requires forall f :: FieldValid(o, f, isUrl) == FieldValid(o', f, isUrl)
    ensures Failures(o, isUrl) == Failures(o', isUrl)
  {
  }

  lemma BuildOnSchemaKeys(o: map<string, Json>, o': map<string, Json>, isUrl: string -> bool)
    requires SameOnSchema(o, o')
    requires forall f :: FieldValid(o, f, isUrl)
    requires forall f :: FieldValid(o', f, isUrl)
    ensures Build(o, isUrl) == Build(o', isUrl)
  {
    assert Lookup(o, "flower_name") == Lookup(o', "flower_name");
    assert Lookup(o, "watering_schedule") == Lookup(o', "watering_schedule");
    assert Lookup(o, "care_recommendations") == Lookup(o', "care_recommendations");
    assert Lookup(o, "health_assessment") == Lookup(o', "health_assessment");
    assert Lookup(o, "confidence") == Lookup(o', "confidence");
    assert Lookup(o, "issues") == Lookup(o', "issues");
    assert Lookup(o, "tips") == Lookup(o', "tips");
    assert Lookup(o, "sources") == Lookup(o', "sources");
  }

  /** Unknown keys are stripped: objects that agree on the schema's keys validate identically. */
  lemma StripsUnknownKeys(o: map<string, Json>, o': map<string, Json>, isUrl: string -> bool)
    requires forall k :: k in SchemaKeys ==> Lookup(o, k) == Lookup(o', k)
    ensures Validate(JObj(o), isUrl) == Validate(JObj(o'), isUrl)
  {
    FailuresOnSchemaKeys(o, o', isUrl);
    if Failures(o, isUrl) == {} {
      FailuresExact(o, isUrl);
      FailuresExact(o', isUrl);
      BuildOnSchemaKeys(o, o', isUrl);
    }
  }
}
