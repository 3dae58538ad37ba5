/**
 * The shared zod schemas, as validators over JSON values. An object schema checks
 * each of its fields, fills in defaults, and keeps only its own keys; the format
 * checks (uuid, ISO datetime, date, URL) are predicates passed in.
 */
module Schemas {
  import opened Wrappers

  datatype Json =
    | JNull
    | JBool(b: bool)
    | JNumber(n: real)
    | JString(s: string)
    | JArray(items: seq<Json>)
    | JObject(fields: map<string, Json>)

  /** The string formats zod checks with its own patterns. */
  datatype Formats = Formats(uuid: string -> bool, datetime: string -> bool, date: string -> bool, url: string -> bool)

  datatype StringFormat = AnyText | Uuid | DateTime | Date

  /** The value types the schemas use. */
  datatype Kind =
    | Str(minLength: nat, format: StringFormat)   // z.string(), .min(n), .uuid(), .datetime(), .date()
    | UrlOrNonEmpty                               // z.string().url().or(z.string().min(1))
    | Enum(options: seq<string>)                  // z.enum([...])
    | Boolean                                     // z.boolean()
    | Record                                      // z.record(z.any())
    | Anything                                    // z.any()

  /** Required, `.optional()`, or `.default(v)`. */
  datatype Presence = Required | Optional | Default(value: Json)

  datatype Field = Field(key: string, kind: Kind, presence: Presence)

  type Schema = seq<Field>

  /** What parsing reports: the whole input is not an object, or a field is missing or wrong. */
  datatype Issue = NotAnObject | FieldIssue(key: string)

  datatype Parsed = Valid(value: map<string, Json>) | Invalid(issues: seq<Issue>)

  predicate FormatHolds(format: StringFormat, s: string, f: Formats) {
    match format
    case AnyText => true
    case Uuid => f.uuid(s)
    case DateTime => f.datetime(s)
    case Date => f.date(s)
  }

  predicate Accepts(kind: Kind, v: Json, f: Formats) {
    match kind
    case Str(minLength, format) => v.JString? && |v.s| >= minLength && FormatHolds(format, v.s, f)
    case UrlOrNonEmpty => v.JString? && (f.url(v.s) || |v.s| >= 1)
    case Enum(options) => v.JString? && v.s in options
    case Boolean => v.JBool?
    case Record => v.JObject?
    case Anything => true
  }

  /** A field passes when its value is accepted, or when it is absent and optional or defaulted to an accepted value. */
  predicate FieldOk(field: Field, m: map<string, Json>, f: Formats) {
    if field.key in m then Accepts(field.kind, m[field.key], f)
    else match field.presence
      case Required => false
      case Optional => true
      case Default(d) => Accepts(field.kind, d, f)
  }

  /** The value a field contributes to the output: the input's, the default, or nothing. */
  function FieldOutput(field: Field, m: map<string, Json>): Option<Json> {
    if field.key in m then Some(m[field.key])
    else if field.presence.Default? then Some(field.presence.value)
    else None
  }

  predicate OutputAgrees(field: Field, m: map<string, Json>, out: map<string, Json>) {
    match FieldOutput(field, m)
    case Some(v) => field.key in out && out[field.key] == v
    case None => field.key !in out
  }

  function KeysOf(schema: Schema): set<string> {
    set k | 0 <= k < |schema| :: schema[k].key
  }

  predicate UniqueKeys(schema: Schema) {
    forall i, j | 0 <= i < j < |schema| :: schema[i].key != schema[j].key
  }

  datatype Checked = Checked(out: map<string, Json>, issues: seq<Issue>)

  /** Checks the fields in order, collecting one issue per failing field and the output of each. */
  function CheckFields(schema: Schema, m: map<string, Json>, f: Formats): (r: Checked)
    ensures r.issues == [] <==> forall k | 0 <= k < |schema| :: FieldOk(schema[k], m, f)
    ensures r.out.Keys <= KeysOf(schema)
    ensures UniqueKeys(schema) ==> forall k | 0 <= k < |schema| :: OutputAgrees(schema[k], m, r.out)
  {
    if schema == [] then Checked(map[], [])
    else
      var rest := CheckFields(schema[1..], m, f);
      var field := schema[0];
      var out := match FieldOutput(field, m)
        case Some(v) => rest.out[field.key := v]
        case None => rest.out;
      var issues := (if FieldOk(field, m, f) then [] else [FieldIssue(field.key)]) + rest.issues;
      KeysOfCons(schema);
      FieldsOkCons(schema, m, f);
      assert UniqueKeys(schema) ==> forall k | 0 <= k < |schema| :: OutputAgrees(schema[k], m, out) by {
        if UniqueKeys(schema) {
          UniqueKeysCons(schema);
          forall k | 1 <= k < |schema| ensures OutputAgrees(schema[k], m, out) {
            assert schema[k] == schema[1..][k - 1];
            assert OutputAgrees(schema[1..][k - 1], m, rest.out);
          }
        }
      }
      Checked(out, issues)
  }

  lemma KeysOfCons(schema: Schema)
    requires schema != []
    ensures KeysOf(schema) == {schema[0].key} + KeysOf(schema[1..])
  {
    forall x | x in KeysOf(schema) ensures x in {schema[0].key} + KeysOf(schema[1..]) {
      var k :| 0 <= k < |schema| && schema[k].key == x;
      if k > 0 { assert schema[1..][k - 1].key == x; }
    }
  }

  lemma FieldsOkCons(schema: Schema, m: map<string, Json>, f: Formats)
    requires schema != []
    ensures (forall k | 0 <= k < |schema| :: FieldOk(schema[k], m, f)) <==>
      FieldOk(schema[0], m, f) && (forall k | 0 <= k < |schema[1..]| :: FieldOk(schema[1..][k], m, f))
  {
    if forall k | 0 <= k < |schema[1..]| :: FieldOk(schema[1..][k], m, f) {
      forall k | 1 <= k < |schema| ensures FieldOk(schema[k], m, f) {
        assert schema[k] == schema[1..][k - 1];
      }
    }
  }

  lemma UniqueKeysCons(schema: Schema)
    requires schema != [] && UniqueKeys(schema)
    ensures UniqueKeys(schema[1..]) && schema[0].key !in KeysOf(schema[1..])
  {
  }

  /** `schema.parse(input)` in zod's default "strip" mode. */
  function Parse(schema: Schema, input: Json, f: Formats): (r: Parsed)
    ensures r.Valid? <==> input.JObject? && forall k | 0 <= k < |schema| :: FieldOk(schema[k], input.fields, f)
    ensures r.Valid? ==> r.value.Keys <= KeysOf(schema)
    ensures r.Valid? && UniqueKeys(schema) ==> forall k | 0 <= k < |schema| :: OutputAgrees(schema[k], input.fields, r.value)
    ensures r.Invalid? ==> |r.issues| >= 1
  {
    if !input.JObject? then Invalid([NotAnObject])
    else
      var c := CheckFields(schema, input.fields, f);
      if c.issues == [] then Valid(c.out) else Invalid(c.issues)
  }

  // ---------------------------------------------------------------- the schemas

  const Ga4OrGsc := ["GA4", "GSC"]

  const BrandSchema: Schema := [
    Field("id", Str(0, Uuid), Required),
    Field("name", Str(1, AnyText), Required),
    Field("domain", UrlOrNonEmpty, Required),
    Field("created_at", Str(0, DateTime), Required),
    Field("updated_at", Str(0, DateTime), Required),
    Field("created_by", Str(0, Uuid), Required)]

  const CreateBrandSchema: Schema := [
    Field("name", Str(1, AnyText), Required),
    Field("domain", Str(1, AnyText), Required)]

  const GoogleIntegrationSchema: Schema := [
    Field("id", Str(0, Uuid), Required),
    Field("brand_id", Str(0, Uuid), Required),
    Field("integration_type", Enum(Ga4OrGsc), Required),
    Field("property_id", Str(0, AnyText), Optional),
    Field("status", Str(0, AnyText), Default(JString("pending"))),
    Field("last_sync", Str(0, DateTime), Optional),
    Field("created_at", Str(0, DateTime), Required)]

  const AnalyticsSnapshotSchema: Schema := [
    Field("id", Str(0, Uuid), Required),
    Field("brand_id", Str(0, Uuid), Required),
    Field("source", Enum(Ga4OrGsc), Required),
    Field("metric_type", Str(0, AnyText), Required),
    Field("data", Record, Required),
    Field("date_from", Str(0, Date), Required),
    Field("date_to", Str(0, Date), Required),
    Field("created_at", Str(0, DateTime), Required)]

  const ChatSessionSchema: Schema := [
    Field("id", Str(0, Uuid), Required),
    Field("brand_id", Str(0, Uuid), Required),
    Field("user_id", Str(0, Uuid), Required),
    Field("title", Str(0, AnyText), Optional),
    Field("created_at", Str(0, DateTime), Required)]

  const ChatMessageSchema: Schema := [
    Field("id", Str(0, Uuid), Required),
    Field("session_id", Str(0, Uuid), Required),
    Field("role", Enum(["user", "assistant"]), Required),
    Field("content", Str(0, AnyText), Required),
    Field("metadata", Record, Optional),
    Field("created_at", Str(0, DateTime), Required)]

  const DashboardConfigSchema: Schema := [
    Field("id", Str(0, Uuid), Required),
    Field("brand_id", Str(0, Uuid), Required),
    Field("name", Str(0, AnyText), Required),
    Field("config", Record, Required),
    Field("is_default", Boolean, Default(JBool(false))),
    Field("created_at", Str(0, DateTime), Required)]

  const ApiResponseSchema: Schema := [
    Field("success", Boolean, Required),
    Field("data", Anything, Optional),
    Field("error", Str(0, AnyText), Optional),
    Field("message", Str(0, AnyText), Optional)]

  // ---------------------------------------------------------------- properties

  /** Keys the schema does not name change nothing: they are neither checked nor kept. */
  lemma UnknownKeysIgnored(schema: Schema, m: map<string, Json>, key: string, v: Json, f: Formats)
    requires key !in KeysOf(schema)
    ensures Parse(schema, JObject(m[key := v]), f) == Parse(schema, JObject(m), f)
  {
    CheckFieldsIgnoresKey(schema, m, key, v, f);
  }

  lemma {:induction false} CheckFieldsIgnoresKey(schema: Schema, m: map<string, Json>, key: string, v: Json, f: Formats)
    requires key !in KeysOf(schema)
    ensures CheckFields(schema, m[key := v], f) == CheckFields(schema, m, f)
  {
    if schema != [] {
      assert schema[0].key in KeysOf(schema);
      assert KeysOf(schema[1..]) <= KeysOf(schema) by {
        forall x | x in KeysOf(schema[1..]) ensures x in KeysOf(schema) {
          var k :| 0 <= k < |schema[1..]| && schema[1..][k].key == x;
          assert schema[k + 1].key == x;
        }
      }
      CheckFieldsIgnoresKey(schema[1..], m, key, v, f);
    }
  }

  /** Dropping a key whose field is optional keeps a valid input valid. */
  lemma OptionalMayBeAbsent(schema: Schema, m: map<string, Json>, key: string, f: Formats)
    requires forall k | 0 <= k < |schema| && schema[k].key == key :: schema[k].presence.Optional?
    requires Parse(schema, JObject(m), f).Valid?
    ensures Parse(schema, JObject(m - {key}), f).Valid?
  {
    forall k | 0 <= k < |schema| ensures FieldOk(schema[k], m - {key}, f) {
      assert FieldOk(schema[k], m, f);
    }
  }

  /** The optional fields named by the schemas. */
  lemma NamedFieldsAreOptional()
    ensures forall k | 0 <= k < |GoogleIntegrationSchema| && GoogleIntegrationSchema[k].key in {"property_id", "last_sync"} ::
      GoogleIntegrationSchema[k].presence.Optional?
    ensures forall k | 0 <= k < |ChatSessionSchema| && ChatSessionSchema[k].key == "title" :: ChatSessionSchema[k].presence.Optional?
    ensures forall k | 0 <= k < |ChatMessageSchema| && ChatMessageSchema[k].key == "metadata" :: ChatMessageSchema[k].presence.Optional?
  {
  }

  /** A brand to create needs exactly a non-empty string name and a non-empty string domain. */
  lemma CreateBrandAccepts(m: map<string, Json>, f: Formats)
    ensures Parse(CreateBrandSchema, JObject(m), f).Valid? <==>
      "name" in m && m["name"].JString? && |m["name"].s| >= 1 &&
      "domain" in m && m["domain"].JString? && |m["domain"].s| >= 1
  {
    assert CreateBrandSchema[0].key == "name" && CreateBrandSchema[1].key == "domain";
  }

  /** A field that yields a value keeps it in the output, unless an earlier field has the same key. */
  lemma {:induction false} DefinedFieldKept(schema: Schema, m: map<string, Json>, f: Formats, k: nat)
    requires k < |schema| && FieldOutput(schema[k], m).Some?
    requires forall j | 0 <= j < k :: schema[j].key != schema[k].key
    ensures var out := CheckFields(schema, m, f).out;
      schema[k].key in out && out[schema[k].key] == FieldOutput(schema[k], m).value
  {
    if k > 0 {
      assert schema[1..][k - 1] == schema[k];
      forall j | 0 <= j < k - 1 ensures schema[1..][j].key != schema[k].key {
        assert schema[1..][j] == schema[j + 1];
      }
      DefinedFieldKept(schema[1..], m, f, k - 1);
    }
  }

  /** A parsed integration keeps its type, which is 'GA4' or 'GSC'. */
  lemma IntegrationTypeIsGa4OrGsc(m: map<string, Json>, f: Formats)
    requires Parse(GoogleIntegrationSchema, JObject(m), f).Valid?
    ensures var out := Parse(GoogleIntegrationSchema, JObject(m), f).value;
      "integration_type" in out && out["integration_type"].JString? && out["integration_type"].s in Ga4OrGsc
  {
    ParsedFieldKept(GoogleIntegrationSchema, m, f, 2);
  }

  /** A parsed integration always has a status, 'pending' when the input has none. */
  lemma StatusDefaultsToPending(m: map<string, Json>, f: Formats)
    requires Parse(GoogleIntegrationSchema, JObject(m), f).Valid?
    ensures var out := Parse(GoogleIntegrationSchema, JObject(m), f).value;
      "status" in out && ("status" !in m ==> out["status"] == JString("pending"))
  {
    ParsedFieldKept(GoogleIntegrationSchema, m, f, 4);
  }

  /** In a valid parse, a field that yields a value keeps it, unless an earlier field has the same key. */
  lemma ParsedFieldKept(schema: Schema, m: map<string, Json>, f: Formats, k: nat)
    requires Parse(schema, JObject(m), f).Valid?
    requires k < |schema| && forall j | 0 <= j < k :: schema[j].key != schema[k].key
    ensures FieldOk(schema[k], m, f)
    ensures FieldOutput(schema[k], m).Some? ==>
      var out := Parse(schema, JObject(m), f).value;
      schema[k].key in out && out[schema[k].key] == FieldOutput(schema[k], m).value
  {
    if FieldOutput(schema[k], m).Some? {
      DefinedFieldKept(schema, m, f, k);
    }
  }

  /** A snapshot is accepted only with source 'GA4' or 'GSC'. */
  lemma SnapshotSource(m: map<string, Json>, f: Formats)
    requires Parse(AnalyticsSnapshotSchema, JObject(m), f).Valid?
    ensures "source" in m && m["source"] in {JString("GA4"), JString("GSC")}
  {
    assert FieldOk(AnalyticsSnapshotSchema[2], m, f);
  }

  /** A chat message is accepted only with role 'user' or 'assistant'. */
  lemma MessageRole(m: map<string, Json>, f: Formats)
    requires Parse(ChatMessageSchema, JObject(m), f).Valid?
    ensures "role" in m && m["role"] in {JString("user"), JString("assistant")}
  {
    assert FieldOk(ChatMessageSchema[2], m, f);
  }

  /** A dashboard configuration without `is_default` parses with it set to false. */
  lemma DashboardDefault(m: map<string, Json>, f: Formats)
    requires Parse(DashboardConfigSchema, JObject(m), f).Valid? && "is_default" !in m
    ensures var out := Parse(DashboardConfigSchema, JObject(m), f).value;
      "is_default" in out && out["is_default"] == JBool(false)
  {
    DefinedFieldKept(DashboardConfigSchema, m, f, 4);
  }

  /** An API response needs a boolean `success`. */
  lemma ApiResponseNeedsBooleanSuccess(m: map<string, Json>, f: Formats)
    ensures Parse(ApiResponseSchema, JObject(m), f).Valid? ==> "success" in m && m["success"].JBool?
  {
    if Parse(ApiResponseSchema, JObject(m), f).Valid? {
      assert FieldOk(ApiResponseSchema[0], m, f);
    }
  }

  /** A boolean `success` alone makes a valid API response. */
  lemma ApiResponseSuccessSuffices(b: bool, f: Formats)
    ensures Parse(ApiResponseSchema, JObject(map["success" := JBool(b)]), f).Valid?
  {
    var m := map["success" := JBool(b)];
    forall k | 0 <= k < |ApiResponseSchema| ensures FieldOk(ApiResponseSchema[k], m, f) {
      assert k == 0 || ApiResponseSchema[k].key !in m;
    }
  }
}
