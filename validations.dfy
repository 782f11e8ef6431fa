/** The agent schemas of lib/validations.ts. A zod object schema is a list
    of fields, each with its type, its checks and whether it may be missing;
    `ParseObject` checks a JSON body against any such list the way zod's
    `parse` does: every field is checked, every failure is reported in
    schema order, and keys outside the schema are dropped.
    `createAgentSchema` is one such list; `updateAgentSchema` is built from
    it with `Partial` and `Omit`, as the source builds it. */
module Validations {
  import opened Wrappers
  import opened Json
  import Seqs

  /** The JavaScript type names zod reports in an `invalid_type` issue. */
  datatype TypeName = TUndefined | TNull | TBoolean | TNumber | TString | TArray | TObject

  datatype IssueCode =
    | InvalidType(expected: TypeName, received: TypeName)
    | TooSmall(message: string)
    | TooBig(message: string)
    | InvalidUuid

  /** A zod issue: the path of the offending value (`[]` for the body itself) and what is wrong. */
  datatype Issue = Issue(path: seq<string>, code: IssueCode)

  /** The checks a zod string schema may carry. */
  datatype StringCheck =
    | MinLength(min: nat, message: string)
    | MaxLength(max: nat, message: string)
    | Uuid

  /** The two field types the agent schemas use: `z.string()` with its
      checks, and `z.number().min(0).max(1)`. */
  datatype FieldType = Text(checks: seq<StringCheck>) | UnitInterval

  datatype Value = Str(s: string) | Num(n: real)

  /** How a field treats a missing key: an issue, no value (`.optional()`),
      or a default value (`.optional().default(v)`). */
  datatype Presence = Required | Optional | Defaulted(default: Value)

  datatype Field = Field(key: string, kind: FieldType, presence: Presence)

  // zod's own messages for `number().min(0)` and `number().max(1)`.
  const BelowZeroMessage := "Number must be greater than or equal to 0"
  const AboveOneMessage := "Number must be less than or equal to 1"

  /** The default of `voice_stability` and `voice_similarity_boost`. */
  const DefaultVoiceSetting: real := 0.5

  // The message of the `name` bound says "less than 100", but `max(100)`
  // accepts a name of exactly 100 characters.
  const OrgIdField := Field("org_id", Text([Uuid]), Required)
  const NameField := Field("name", Text([MinLength(1, "Name is required"),
    MaxLength(100, "Name must be less than 100 characters")]), Required)
  const LanguageField := Field("language", Text([MinLength(1, "Language is required")]), Required)
  const SystemPromptField := Field("system_prompt", Text([MinLength(1, "System prompt is required")]), Required)
  const VoiceIdField := Field("elevenlabs_voice_id", Text([MinLength(1, "Voice ID is required")]), Required)
  const StabilityField := Field("voice_stability", UnitInterval, Defaulted(Num(DefaultVoiceSetting)))
  const SimilarityField := Field("voice_similarity_boost", UnitInterval, Defaulted(Num(DefaultVoiceSetting)))
  const StyleField := Field("voice_style", Text([]), Optional)

  const CreateAgentSchema: seq<Field> := [OrgIdField, NameField, LanguageField, SystemPromptField,
    VoiceIdField, StabilityField, SimilarityField, StyleField]

  /** zod's `.partial()`: every field becomes optional. A defaulted field
      becomes optional too: zod's optional wrapper answers a missing key
      itself, so the inner default is no longer applied. */
  function Partial(schema: seq<Field>): (r: seq<Field>)
    ensures |r| == |schema|
    ensures forall i :: 0 <= i < |schema| ==> r[i] == schema[i].(presence := Optional)
  {
    seq(|schema|, i requires 0 <= i < |schema| => schema[i].(presence := Optional))
  }

  /** zod's `.omit({ key: true })`. */
  function Omit(schema: seq<Field>, key: string): (r: seq<Field>)
    ensures forall f :: f in r <==> f in schema && f.key != key
  {
    Seqs.Filter(schema, KeyOtherThan(key))
  }

  function KeyOtherThan(key: string): Field -> bool {
    (f: Field) => f.key != key
  }

  const UpdateAgentSchema: seq<Field> := Omit(Partial(CreateAgentSchema), "org_id")

  function TypeOf(v: Option<Json>): TypeName {
    match v
    case None => TUndefined
    case Some(JNull) => TNull
    case Some(JBool(_)) => TBoolean
    case Some(JNumber(_)) => TNumber
    case Some(JString(_)) => TString
    case Some(JArray(_)) => TArray
    case Some(JObject(_)) => TObject
  }

  /** A key of a JSON object; a missing key reads as `undefined`. */
  function Lookup(fields: map<string, Json>, key: string): Option<Json> {
    if key in fields then Some(fields[key]) else None
  }

  predicate IsHexDigit(c: char) {
    '0' <= c <= '9' || 'a' <= c <= 'f' || 'A' <= c <= 'F'
  }

  /** The textual UUID form: 8-4-4-4-12 hexadecimal digits, either case. */
  predicate IsUuid(s: string) {
    |s| == 36 &&
    forall i :: 0 <= i < |s| ==>
      if i == 8 || i == 13 || i == 18 || i == 23 then s[i] == '-' else IsHexDigit(s[i])
  }

  predicate Passes(s: string, c: StringCheck) {
    match c
    case MinLength(min, _) => |s| >= min
    case MaxLength(max, _) => |s| <= max
    case Uuid => IsUuid(s)
  }

  function IssueFor(c: StringCheck): IssueCode {
    match c
    case MinLength(_, message) => TooSmall(message)
    case MaxLength(_, message) => TooBig(message)
    case Uuid => InvalidUuid
  }

  /** The string `s` passes every check of `checks`. */
  predicate Meets(s: string, checks: seq<StringCheck>) {
    forall i :: 0 <= i < |checks| ==> Passes(s, checks[i])
  }

  /** A present JSON value that satisfies a field type. */
  predicate Conforms(kind: FieldType, v: Json) {
    match kind
    case Text(checks) => v.JString? && Meets(v.s, checks)
    case UnitInterval => v.JNumber? && 0.0 <= v.n <= 1.0
  }

  /** The value zod returns for a present, conforming JSON value. */
  function ValueOf(v: Json): Value {
    if v.JNumber? then Num(v.n) else if v.JString? then Str(v.s) else Str("")
  }

  /** The issues of the string `s` at `key`: one per failed check, in the order of the checks. */
  function StringIssues(key: string, s: string, checks: seq<StringCheck>): (r: seq<Issue>)
    ensures r == [] <==> Meets(s, checks)
    ensures forall i :: 0 <= i < |checks| && !Passes(s, checks[i]) ==> Issue([key], IssueFor(checks[i])) in r
  {
    if checks == [] then []
    else
      var rest := StringIssues(key, s, checks[1..]);
      assert forall i :: 1 <= i < |checks| ==> checks[i] == checks[1..][i - 1];
      (if Passes(s, checks[0]) then [] else [Issue([key], IssueFor(checks[0]))]) + rest
  }

  /** The issues of a present value at `key`. */
  function ValueIssues(key: string, kind: FieldType, v: Json): (r: seq<Issue>)
    ensures r == [] <==> Conforms(kind, v)
  {
    match kind
    case Text(checks) =>
      if v.JString? then StringIssues(key, v.s, checks)
      else [Issue([key], InvalidType(TString, TypeOf(Some(v))))]
    case UnitInterval =>
      if v.JNumber? then
        (if v.n < 0.0 then [Issue([key], TooSmall(BelowZeroMessage))] else []) +
        (if v.n > 1.0 then [Issue([key], TooBig(AboveOneMessage))] else [])
      else [Issue([key], InvalidType(TNumber, TypeOf(Some(v))))]
  }

  function Expected(kind: FieldType): TypeName {
    if kind.Text? then TString else TNumber
  }

  /** One field of an object schema checked against the body's fields: the
      value it contributes (none for a missing optional key), or its issues. */
  function CheckField(f: Field, fields: map<string, Json>): (r: Result<Option<Value>, seq<Issue>>)
    ensures r.Ok? <==> if f.key in fields then Conforms(f.kind, fields[f.key]) else !f.presence.Required?
    ensures r.Ok? && f.key in fields ==> r.value == Some(ValueOf(fields[f.key]))
    ensures r.Ok? && f.key !in fields ==> r.value == if f.presence.Defaulted? then Some(f.presence.default) else None
    ensures r.Err? ==> r.error != []
    ensures f.key !in fields && f.presence.Required? ==> r.error == [Issue([f.key], InvalidType(Expected(f.kind), TUndefined))]
  {
    if f.key in fields then
      var issues := ValueIssues(f.key, f.kind, fields[f.key]);
      if issues == [] then Ok(Some(ValueOf(fields[f.key]))) else Err(issues)
    else
      match f.presence
      case Required => Err([Issue([f.key], InvalidType(Expected(f.kind), TUndefined))])
      case Optional => Ok(None)
      case Defaulted(d) => Ok(Some(d))
  }

  function Problems<T>(r: Result<T, seq<Issue>>): seq<Issue> {
    if r.Err? then r.error else []
  }

  function Entry(m: map<string, Value>, key: string): Option<Value> {
    if key in m then Some(m[key]) else None
  }

  /** No two different fields share a key (a schema is a JavaScript object literal). */
  predicate DistinctKeys(schema: seq<Field>) {
    forall i, j :: 0 <= i < j < |schema| ==> schema[i].key != schema[j].key
  }

  /** The fields of an object body checked against `schema`. */
  function ParseFields(schema: seq<Field>, fields: map<string, Json>): (r: Result<map<string, Value>, seq<Issue>>)
    ensures r.Ok? <==> forall i :: 0 <= i < |schema| ==> CheckField(schema[i], fields).Ok?
    ensures r.Ok? && DistinctKeys(schema) ==>
      forall i :: 0 <= i < |schema| ==> Entry(r.value, schema[i].key) == CheckField(schema[i], fields).value
    ensures r.Ok? ==> forall k :: k in r.value ==> exists i :: 0 <= i < |schema| && schema[i].key == k
    ensures r.Err? ==> r.error != []
    ensures forall i, x :: 0 <= i < |schema| && x in Problems(CheckField(schema[i], fields)) ==> x in Problems(r)
  {
    if schema == [] then Ok(map[])
    else
      var head := CheckField(schema[0], fields);
      var rest := ParseFields(schema[1..], fields);
      assert forall i :: 1 <= i < |schema| ==> schema[i] == schema[1..][i - 1];
      if head.Ok? && rest.Ok? then
        Ok(if head.value.Some? then rest.value[schema[0].key := head.value.value] else rest.value)
      else
        Err(Problems(head) + Problems(rest))
  }

  /** `schema.parse(body)` for an object schema. */
  function ParseObject(schema: seq<Field>, body: Json): (r: Result<map<string, Value>, seq<Issue>>)
    ensures !body.JObject? ==> r == Err([Issue([], InvalidType(TObject, TypeOf(Some(body))))])
    ensures body.JObject? ==> r == ParseFields(schema, body.fields)
  {
    if body.JObject? then ParseFields(schema, body.fields)
    else Err([Issue([], InvalidType(TObject, TypeOf(Some(body))))])
  }

  /** A `ParseFields` answer depends only on the keys the schema names. */
  lemma {:induction false} ParseFieldsReadsOnlySchemaKeys(schema: seq<Field>, f1: map<string, Json>, f2: map<string, Json>)
    requires forall i :: 0 <= i < |schema| ==> Lookup(f1, schema[i].key) == Lookup(f2, schema[i].key)
    ensures ParseFields(schema, f1) == ParseFields(schema, f2)
  {
    if schema != [] {
      assert Lookup(f1, schema[0].key) == Lookup(f2, schema[0].key);
      assert CheckField(schema[0], f1) == CheckField(schema[0], f2);
      assert forall i :: 0 <= i < |schema[1..]| ==> schema[1..][i] == schema[i + 1];
      ParseFieldsReadsOnlySchemaKeys(schema[1..], f1, f2);
    }
  }

  /** A key no field of the schema names does not change the outcome, whatever its value. */
  lemma ParseFieldsIgnoresKey(schema: seq<Field>, fields: map<string, Json>, key: string, v: Json)
    requires forall i :: 0 <= i < |schema| ==> schema[i].key != key
    ensures ParseFields(schema, fields[key := v]) == ParseFields(schema, fields - {key})
  {
    ParseFieldsReadsOnlySchemaKeys(schema, fields[key := v], fields - {key});
  }

  /** `Partial` accepts every body its schema accepts. */
  lemma PartialAcceptsMore(schema: seq<Field>, fields: map<string, Json>)
    requires ParseFields(schema, fields).Ok?
    ensures ParseFields(Partial(schema), fields).Ok?
  {
    forall i | 0 <= i < |schema| ensures CheckField(Partial(schema)[i], fields).Ok? {
      assert CheckField(schema[i], fields).Ok?;
    }
  }

  // ---- createAgentSchema -------------------------------------------------

  datatype CreateAgentData = CreateAgentData(
    org_id: string,
    name: string,
    language: string,
    system_prompt: string,
    elevenlabs_voice_id: string,
    voice_stability: real,
    voice_similarity_boost: real,
    voice_style: Option<string>)

  function TextAt(m: map<string, Value>, key: string): string {
    if key in m && m[key].Str? then m[key].s else ""
  }

  function NumberAt(m: map<string, Value>, key: string): real {
    if key in m && m[key].Num? then m[key].n else 0.0
  }

  function OptionalTextAt(m: map<string, Value>, key: string): Option<string> {
    if key in m && m[key].Str? then Some(m[key].s) else None
  }

  function OptionalNumberAt(m: map<string, Value>, key: string): Option<real> {
    if key in m && m[key].Num? then Some(m[key].n) else None
  }

  /** A voice setting of a validated record: in [0, 1], the body's number
      when the key is present and the default when it is not. */
  predicate SettingFrom(fields: map<string, Json>, key: string, x: real) {
    0.0 <= x <= 1.0 &&
    if key in fields then fields[key] == JNumber(x) else x == DefaultVoiceSetting
  }

  /** An optional text value of a validated record: absent exactly when the
      key is, otherwise the string the body holds. */
  predicate StringFrom(fields: map<string, Json>, key: string, o: Option<string>) {
    if key in fields then o.Some? && fields[key] == JString(o.value) else o.None?
  }

  /** The same for an optional number. */
  predicate NumberFrom(fields: map<string, Json>, key: string, o: Option<real>) {
    if key in fields then o.Some? && fields[key] == JNumber(o.value) else o.None?
  }

  /** The records `createAgentSchema` may produce from `fields`, stated
      field by field: every value taken from the body and within its bounds. */
  predicate DescribesAgent(fields: map<string, Json>, d: CreateAgentData) {
    && Lookup(fields, "org_id") == Some(JString(d.org_id)) && IsUuid(d.org_id)
    && Lookup(fields, "name") == Some(JString(d.name)) && 1 <= |d.name| <= 100
    && Lookup(fields, "language") == Some(JString(d.language)) && |d.language| >= 1
    && Lookup(fields, "system_prompt") == Some(JString(d.system_prompt)) && |d.system_prompt| >= 1
    && Lookup(fields, "elevenlabs_voice_id") == Some(JString(d.elevenlabs_voice_id))
    && |d.elevenlabs_voice_id| >= 1
    && SettingFrom(fields, "voice_stability", d.voice_stability)
    && SettingFrom(fields, "voice_similarity_boost", d.voice_similarity_boost)
    && StringFrom(fields, "voice_style", d.voice_style)
  }

  /** The entry a field contributes to a successful parse of a schema with distinct keys. */
  lemma EntryOf(schema: seq<Field>, fields: map<string, Json>, i: nat)
    requires ParseFields(schema, fields).Ok? && DistinctKeys(schema) && i < |schema|
    ensures CheckField(schema[i], fields).Ok?
    ensures Entry(ParseFields(schema, fields).value, schema[i].key) == CheckField(schema[i], fields).value
  {
  }

  /** The entry of an accepted text field without a default: the body's
      string, meeting the field's checks, and absent exactly when the key is. */
  lemma TextEntry(f: Field, fields: map<string, Json>, m: map<string, Value>)
    requires f.kind.Text? && !f.presence.Defaulted?
    requires CheckField(f, fields).Ok? && Entry(m, f.key) == CheckField(f, fields).value
    ensures StringFrom(fields, f.key, OptionalTextAt(m, f.key))
    ensures f.key in fields ==>
      fields[f.key] == JString(TextAt(m, f.key)) && Meets(TextAt(m, f.key), f.kind.checks)
  {
  }

  /** The entry of an accepted voice setting field, defaulted or optional. */
  lemma NumberEntry(f: Field, fields: map<string, Json>, m: map<string, Value>)
    requires f.kind == UnitInterval
    requires f.presence == Optional || f.presence == Defaulted(Num(DefaultVoiceSetting))
    requires CheckField(f, fields).Ok? && Entry(m, f.key) == CheckField(f, fields).value
    ensures f.presence.Defaulted? ==> SettingFrom(fields, f.key, NumberAt(m, f.key))
    ensures f.presence == Optional ==> NumberFrom(fields, f.key, OptionalNumberAt(m, f.key))
    ensures OptionalNumberAt(m, f.key).Some? ==> 0.0 <= OptionalNumberAt(m, f.key).value <= 1.0
  {
  }

  lemma CreateSchemaKeysDistinct()
    ensures DistinctKeys(CreateAgentSchema)
  {
  }

  /** A required text field whose one check is a minimum length of 1
      accepts exactly a non-empty string. */
  lemma NonEmptyTextField(f: Field, fields: map<string, Json>)
    requires f.presence == Required && f.kind.Text? && |f.kind.checks| == 1
    requires f.kind.checks[0].MinLength? && f.kind.checks[0].min == 1
    ensures CheckField(f, fields).Ok? <==>
      f.key in fields && fields[f.key].JString? && |fields[f.key].s| >= 1
  {
    if f.key in fields && fields[f.key].JString? {
      var s := fields[f.key].s;
      assert Meets(s, f.kind.checks) <==> Passes(s, f.kind.checks[0]);
    }
  }

  /** What the checks of each text field of `createAgentSchema` demand of a string. */
  lemma ChecksMeaning(x: string)
    ensures Meets(x, OrgIdField.kind.checks) <==> IsUuid(x)
    ensures Meets(x, NameField.kind.checks) <==> 1 <= |x| <= 100
    ensures Meets(x, LanguageField.kind.checks) <==> |x| >= 1
    ensures Meets(x, SystemPromptField.kind.checks) <==> |x| >= 1
    ensures Meets(x, VoiceIdField.kind.checks) <==> |x| >= 1
    ensures Meets(x, StyleField.kind.checks)
  {
    assert Meets(x, NameField.kind.checks) <==> Passes(x, NameField.kind.checks[0]) && Passes(x, NameField.kind.checks[1]);
    assert Meets(x, OrgIdField.kind.checks) <==> Passes(x, OrgIdField.kind.checks[0]);
    assert Meets(x, LanguageField.kind.checks) <==> Passes(x, LanguageField.kind.checks[0]);
    assert Meets(x, SystemPromptField.kind.checks) <==> Passes(x, SystemPromptField.kind.checks[0]);
    assert Meets(x, VoiceIdField.kind.checks) <==> Passes(x, VoiceIdField.kind.checks[0]);
  }

  /** What each field of `createAgentSchema` demands of a body. */
  lemma CreateSchemaFields(fields: map<string, Json>)
    ensures CheckField(OrgIdField, fields).Ok? <==>
      "org_id" in fields && fields["org_id"].JString? && IsUuid(fields["org_id"].s)
    ensures CheckField(NameField, fields).Ok? <==>
      "name" in fields && fields["name"].JString? && 1 <= |fields["name"].s| <= 100
    ensures CheckField(LanguageField, fields).Ok? <==>
      "language" in fields && fields["language"].JString? && |fields["language"].s| >= 1
    ensures CheckField(SystemPromptField, fields).Ok? <==>
      "system_prompt" in fields && fields["system_prompt"].JString? && |fields["system_prompt"].s| >= 1
    ensures CheckField(VoiceIdField, fields).Ok? <==>
      "elevenlabs_voice_id" in fields && fields["elevenlabs_voice_id"].JString?
      && |fields["elevenlabs_voice_id"].s| >= 1
    ensures CheckField(StyleField, fields).Ok? <==>
      "voice_style" in fields ==> fields["voice_style"].JString?
  {
    if "name" in fields && fields["name"].JString? {
      var n := fields["name"].s;
      var c := NameField.kind.checks;
      assert Meets(n, c) <==> Passes(n, c[0]) && Passes(n, c[1]);
    }
    if "org_id" in fields && fields["org_id"].JString? {
      var c := OrgIdField.kind.checks;
      assert Meets(fields["org_id"].s, c) <==> Passes(fields["org_id"].s, c[0]);
    }
    NonEmptyTextField(LanguageField, fields);
    NonEmptyTextField(SystemPromptField, fields);
    NonEmptyTextField(VoiceIdField, fields);
  }

  /** `createAgentSchema.parse`. */
  function ValidateCreateAgent(body: Json): (r: Result<CreateAgentData, seq<Issue>>)
    ensures !body.JObject? ==> r == Err([Issue([], InvalidType(TObject, TypeOf(Some(body))))])
    ensures r.Ok? ==> body.JObject? && DescribesAgent(body.fields, r.value)
    ensures r.Err? ==> r.error != []
  {
    match ParseObject(CreateAgentSchema, body)
    case Err(issues) => Err(issues)
    case Ok(m) =>
      CreateAgentFromEntries(body.fields, m);
      Ok(CreateAgentFrom(m))
  }

  function CreateAgentFrom(m: map<string, Value>): CreateAgentData {
    CreateAgentData(
      TextAt(m, "org_id"), TextAt(m, "name"), TextAt(m, "language"), TextAt(m, "system_prompt"),
      TextAt(m, "elevenlabs_voice_id"), NumberAt(m, "voice_stability"),
      NumberAt(m, "voice_similarity_boost"), OptionalTextAt(m, "voice_style"))
  }

  /** The record `ValidateCreateAgent` builds from the parsed entries meets `DescribesAgent`. */
  lemma CreateAgentFromEntries(fields: map<string, Json>, m: map<string, Value>)
    requires ParseFields(CreateAgentSchema, fields) == Ok(m)
    ensures DescribesAgent(fields, CreateAgentFrom(m))
  {
    CreateAgentIdentity(fields, m);
    CreateAgentVoice(fields, m);
    CreateAgentSettings(fields, m);
  }

  /** The first three text entries of a successful `createAgentSchema` parse. */
  lemma CreateAgentIdentity(fields: map<string, Json>, m: map<string, Value>)
    requires ParseFields(CreateAgentSchema, fields) == Ok(m)
    ensures Lookup(fields, "org_id") == Some(JString(TextAt(m, "org_id"))) && IsUuid(TextAt(m, "org_id"))
    ensures Lookup(fields, "name") == Some(JString(TextAt(m, "name"))) && 1 <= |TextAt(m, "name")| <= 100
    ensures Lookup(fields, "language") == Some(JString(TextAt(m, "language"))) && |TextAt(m, "language")| >= 1
  {
    var s := CreateAgentSchema;
    CreateSchemaKeysDistinct();
    ChecksMeaning(TextAt(m, "org_id"));
    ChecksMeaning(TextAt(m, "name"));
    ChecksMeaning(TextAt(m, "language"));
    EntryOf(s, fields, 0);
    TextEntry(OrgIdField, fields, m);
    EntryOf(s, fields, 1);
    TextEntry(NameField, fields, m);
    EntryOf(s, fields, 2);
    TextEntry(LanguageField, fields, m);
  }

  /** The prompt and voice id entries of a successful `createAgentSchema` parse. */
  lemma CreateAgentVoice(fields: map<string, Json>, m: map<string, Value>)
    requires ParseFields(CreateAgentSchema, fields) == Ok(m)
    ensures Lookup(fields, "system_prompt") == Some(JString(TextAt(m, "system_prompt")))
      && |TextAt(m, "system_prompt")| >= 1
    ensures Lookup(fields, "elevenlabs_voice_id") == Some(JString(TextAt(m, "elevenlabs_voice_id")))
      && |TextAt(m, "elevenlabs_voice_id")| >= 1
  {
    var s := CreateAgentSchema;
    CreateSchemaKeysDistinct();
    ChecksMeaning(TextAt(m, "system_prompt"));
    ChecksMeaning(TextAt(m, "elevenlabs_voice_id"));
    EntryOf(s, fields, 3);
    TextEntry(SystemPromptField, fields, m);
    EntryOf(s, fields, 4);
    TextEntry(VoiceIdField, fields, m);
  }

  /** The voice setting and style entries of a successful `createAgentSchema` parse. */
  lemma CreateAgentSettings(fields: map<string, Json>, m: map<string, Value>)
    requires ParseFields(CreateAgentSchema, fields) == Ok(m)
    ensures SettingFrom(fields, "voice_stability", NumberAt(m, "voice_stability"))
    ensures SettingFrom(fields, "voice_similarity_boost", NumberAt(m, "voice_similarity_boost"))
    ensures StringFrom(fields, "voice_style", OptionalTextAt(m, "voice_style"))
  {
    var s := CreateAgentSchema;
    CreateSchemaKeysDistinct();
    EntryOf(s, fields, 5);
    NumberEntry(StabilityField, fields, m);
    EntryOf(s, fields, 6);
    NumberEntry(SimilarityField, fields, m);
    EntryOf(s, fields, 7);
    TextEntry(StyleField, fields, m);
  }

  /** The converse of `ValidateCreateAgent`'s contract: every record the
      body describes is the one the schema returns. */
  lemma ValidateCreateAgentComplete(fields: map<string, Json>, d: CreateAgentData)
    requires DescribesAgent(fields, d)
    ensures ValidateCreateAgent(JObject(fields)) == Ok(d)
  {
    CreateSchemaFields(fields);
    CreateAgentFromEntries(fields, ParseFields(CreateAgentSchema, fields).value);
  }

  /** A voice setting outside [0, 1] is refused, with an issue at its key. */
  lemma SettingOutOfRangeRejected(fields: map<string, Json>, key: string, n: real)
    requires key == "voice_stability" || key == "voice_similarity_boost"
    requires Lookup(fields, key) == Some(JNumber(n)) && (n < 0.0 || n > 1.0)
    ensures ValidateCreateAgent(JObject(fields)).Err?
    ensures Issue([key], if n < 0.0 then TooSmall(BelowZeroMessage) else TooBig(AboveOneMessage))
      in ValidateCreateAgent(JObject(fields)).error
  {
    var i := if key == "voice_stability" then 5 else 6;
    assert Issue([key], if n < 0.0 then TooSmall(BelowZeroMessage) else TooBig(AboveOneMessage))
      in Problems(CheckField(CreateAgentSchema[i], fields));
  }

  /** A missing required key is refused with zod's "Required" issue at that key. */
  lemma MissingRequiredRejected(fields: map<string, Json>, i: nat)
    requires i < 5 && CreateAgentSchema[i].key !in fields
    ensures ValidateCreateAgent(JObject(fields)).Err?
    ensures Issue([CreateAgentSchema[i].key], InvalidType(TString, TUndefined))
      in ValidateCreateAgent(JObject(fields)).error
  {
    assert CreateAgentSchema[i].presence.Required? && CreateAgentSchema[i].kind.Text?;
    assert Issue([CreateAgentSchema[i].key], InvalidType(TString, TUndefined))
      in Problems(CheckField(CreateAgentSchema[i], fields));
  }

  // ---- updateAgentSchema -------------------------------------------------

  /** Every field optional, and no `org_id`. */
  datatype UpdateAgentData = UpdateAgentData(
    name: Option<string>,
    language: Option<string>,
    system_prompt: Option<string>,
    elevenlabs_voice_id: Option<string>,
    voice_stability: Option<real>,
    voice_similarity_boost: Option<real>,
    voice_style: Option<string>)

  /** Omitting the key of a schema's first field removes that field alone
      when keys are distinct. */
  lemma {:induction false} OmitLeading(schema: seq<Field>, key: string)
    requires |schema| > 0 && schema[0].key == key && DistinctKeys(schema)
    ensures Omit(schema, key) == schema[1..]
  {
    var keep := KeyOtherThan(key);
    forall i | 0 <= i < |schema[1..]| ensures keep(schema[1..][i]) {
      assert schema[0].key != schema[i + 1].key;
    }
    Seqs.FilterKeepsAll(schema[1..], keep);
    assert !keep(schema[0]);
    assert Seqs.Filter(schema, keep) == [] + Seqs.Filter(schema[1..], keep);
  }

  /** `Partial` keeps every key, so it keeps keys distinct. */
  lemma PartialKeepsKeys(schema: seq<Field>)
    requires DistinctKeys(schema)
    ensures DistinctKeys(Partial(schema))
  {
    var p := Partial(schema);
    forall i, j | 0 <= i < j < |p| ensures p[i].key != p[j].key {
      assert p[i].key == schema[i].key && p[j].key == schema[j].key;
    }
  }

  /** `updateAgentSchema` is `createAgentSchema` after its first field,
      `org_id`, with every field made optional; its keys stay distinct. */
  lemma UpdateSchemaIsTail()
    ensures UpdateAgentSchema == Partial(CreateAgentSchema)[1..]
    ensures DistinctKeys(UpdateAgentSchema)
  {
    CreateSchemaKeysDistinct();
    PartialKeepsKeys(CreateAgentSchema);
    OmitLeading(Partial(CreateAgentSchema), "org_id");
    TailKeepsKeys(Partial(CreateAgentSchema));
  }

  lemma TailKeepsKeys(schema: seq<Field>)
    requires |schema| > 0 && DistinctKeys(schema)
    ensures DistinctKeys(schema[1..])
  {
    forall i, j | 0 <= i < j < |schema[1..]| ensures schema[1..][i].key != schema[1..][j].key {
      assert schema[1..][i] == schema[i + 1] && schema[1..][j] == schema[j + 1];
    }
  }

  /** The fields of `updateAgentSchema`, one by one. */
  lemma UpdateSchemaFields(u: seq<Field>)
    requires u == UpdateAgentSchema
    ensures |u| == 7
    ensures u[0] == NameField.(presence := Optional)
    ensures u[1] == LanguageField.(presence := Optional)
    ensures u[2] == SystemPromptField.(presence := Optional)
    ensures u[3] == VoiceIdField.(presence := Optional)
    ensures u[4] == StabilityField.(presence := Optional)
    ensures u[5] == SimilarityField.(presence := Optional)
    ensures u[6] == StyleField.(presence := Optional)
    ensures DistinctKeys(u)
  {
    UpdateSchemaIsTail();
    TailFields(u);
  }

  lemma TailFields(u: seq<Field>)
    requires u == Partial(CreateAgentSchema)[1..]
    ensures |u| == 7
    ensures u[0] == NameField.(presence := Optional)
    ensures u[1] == LanguageField.(presence := Optional)
    ensures u[2] == SystemPromptField.(presence := Optional)
    ensures u[3] == VoiceIdField.(presence := Optional)
    ensures u[4] == StabilityField.(presence := Optional)
    ensures u[5] == SimilarityField.(presence := Optional)
    ensures u[6] == StyleField.(presence := Optional)
  {
  }

  /** The records `updateAgentSchema` may produce from `fields`: each value
      absent exactly when its key is, otherwise taken from the body and
      within the bound the create schema sets. */
  predicate DescribesUpdate(fields: map<string, Json>, u: UpdateAgentData) {
    && StringFrom(fields, "name", u.name) && (u.name.Some? ==> 1 <= |u.name.value| <= 100)
    && StringFrom(fields, "language", u.language) && (u.language.Some? ==> |u.language.value| >= 1)
    && StringFrom(fields, "system_prompt", u.system_prompt)
    && (u.system_prompt.Some? ==> |u.system_prompt.value| >= 1)
    && StringFrom(fields, "elevenlabs_voice_id", u.elevenlabs_voice_id)
    && (u.elevenlabs_voice_id.Some? ==> |u.elevenlabs_voice_id.value| >= 1)
    && NumberFrom(fields, "voice_stability", u.voice_stability)
    && (u.voice_stability.Some? ==> 0.0 <= u.voice_stability.value <= 1.0)
    && NumberFrom(fields, "voice_similarity_boost", u.voice_similarity_boost)
    && (u.voice_similarity_boost.Some? ==> 0.0 <= u.voice_similarity_boost.value <= 1.0)
    && StringFrom(fields, "voice_style", u.voice_style)
  }

  function UpdateFromEntries(m: map<string, Value>): UpdateAgentData {
    UpdateAgentData(
      OptionalTextAt(m, "name"), OptionalTextAt(m, "language"), OptionalTextAt(m, "system_prompt"),
      OptionalTextAt(m, "elevenlabs_voice_id"), OptionalNumberAt(m, "voice_stability"),
      OptionalNumberAt(m, "voice_similarity_boost"), OptionalTextAt(m, "voice_style"))
  }

  /** `updateAgentSchema.parse`. */
  function ValidateUpdateAgent(body: Json): (r: Result<UpdateAgentData, seq<Issue>>)
    ensures !body.JObject? ==> r == Err([Issue([], InvalidType(TObject, TypeOf(Some(body))))])
    ensures r.Ok? ==> body.JObject? && DescribesUpdate(body.fields, r.value)
    ensures r.Err? ==> r.error != []
  {
    match ParseObject(UpdateAgentSchema, body)
    case Err(issues) => Err(issues)
    case Ok(m) =>
      UpdateFromEntriesDescribes(body.fields, m);
      Ok(UpdateFromEntries(m))
  }

  /** The record `ValidateUpdateAgent` builds from the parsed entries meets `DescribesUpdate`. */
  lemma UpdateFromEntriesDescribes(fields: map<string, Json>, m: map<string, Value>)
    requires ParseFields(UpdateAgentSchema, fields) == Ok(m)
    ensures DescribesUpdate(fields, UpdateFromEntries(m))
  {
    UpdateTextEntries(UpdateAgentSchema, fields, m);
    UpdateSettingEntries(UpdateAgentSchema, fields, m);
  }

  /** The four text entries of a successful `updateAgentSchema` parse. */
  lemma UpdateTextEntries(u: seq<Field>, fields: map<string, Json>, m: map<string, Value>)
    requires u == UpdateAgentSchema && ParseFields(u, fields) == Ok(m)
    ensures StringFrom(fields, "name", OptionalTextAt(m, "name"))
      && (OptionalTextAt(m, "name").Some? ==> 1 <= |OptionalTextAt(m, "name").value| <= 100)
    ensures StringFrom(fields, "language", OptionalTextAt(m, "language"))
      && (OptionalTextAt(m, "language").Some? ==> |OptionalTextAt(m, "language").value| >= 1)
    ensures StringFrom(fields, "system_prompt", OptionalTextAt(m, "system_prompt"))
      && (OptionalTextAt(m, "system_prompt").Some? ==> |OptionalTextAt(m, "system_prompt").value| >= 1)
    ensures StringFrom(fields, "elevenlabs_voice_id", OptionalTextAt(m, "elevenlabs_voice_id"))
      && (OptionalTextAt(m, "elevenlabs_voice_id").Some? ==>
            |OptionalTextAt(m, "elevenlabs_voice_id").value| >= 1)
  {
    UpdateSchemaFields(u);
    ChecksMeaning(TextAt(m, "name"));
    ChecksMeaning(TextAt(m, "language"));
    ChecksMeaning(TextAt(m, "system_prompt"));
    ChecksMeaning(TextAt(m, "elevenlabs_voice_id"));
    EntryOf(u, fields, 0);
    TextEntry(u[0], fields, m);
    EntryOf(u, fields, 1);
    TextEntry(u[1], fields, m);
    EntryOf(u, fields, 2);
    TextEntry(u[2], fields, m);
    EntryOf(u, fields, 3);
    TextEntry(u[3], fields, m);
  }

  /** The voice setting and style entries of a successful `updateAgentSchema` parse. */
  lemma UpdateSettingEntries(u: seq<Field>, fields: map<string, Json>, m: map<string, Value>)
    requires u == UpdateAgentSchema && ParseFields(u, fields) == Ok(m)
    ensures NumberFrom(fields, "voice_stability", OptionalNumberAt(m, "voice_stability"))
      && (OptionalNumberAt(m, "voice_stability").Some? ==>
            0.0 <= OptionalNumberAt(m, "voice_stability").value <= 1.0)
    ensures NumberFrom(fields, "voice_similarity_boost", OptionalNumberAt(m, "voice_similarity_boost"))
      && (OptionalNumberAt(m, "voice_similarity_boost").Some? ==>
            0.0 <= OptionalNumberAt(m, "voice_similarity_boost").value <= 1.0)
    ensures StringFrom(fields, "voice_style", OptionalTextAt(m, "voice_style"))
  {
    UpdateSchemaFields(u);
    EntryOf(u, fields, 4);
    NumberEntry(u[4], fields, m);
    EntryOf(u, fields, 5);
    NumberEntry(u[5], fields, m);
    EntryOf(u, fields, 6);
    TextEntry(u[6], fields, m);
  }

  /** The converse of `ValidateUpdateAgent`'s contract: every update record
      the body describes, `{}` with every value absent included, is accepted
      and is exactly the record returned. */
  lemma ValidateUpdateAgentComplete(fields: map<string, Json>, u: UpdateAgentData)
    requires DescribesUpdate(fields, u)
    ensures ValidateUpdateAgent(JObject(fields)) == Ok(u)
  {
    UpdateAcceptsDescribed(UpdateAgentSchema, fields, u);
    UpdateFromEntriesDescribes(fields, ParseFields(UpdateAgentSchema, fields).value);
  }

  /** Every field of `updateAgentSchema` accepts a body that describes an update. */
  lemma UpdateAcceptsDescribed(s: seq<Field>, fields: map<string, Json>, u: UpdateAgentData)
    requires s == UpdateAgentSchema && DescribesUpdate(fields, u)
    ensures ParseFields(s, fields).Ok?
  {
    UpdateSchemaFields(s);
    OptionalNameAccepted(fields, u.name);
    OptionalNonEmptyAccepted(s[1], fields, u.language);
    OptionalNonEmptyAccepted(s[2], fields, u.system_prompt);
    OptionalNonEmptyAccepted(s[3], fields, u.elevenlabs_voice_id);
    OptionalSettingAccepted(s[4], fields, u.voice_stability);
    OptionalSettingAccepted(s[5], fields, u.voice_similarity_boost);
    OptionalUncheckedAccepted(s[6], fields, u.voice_style);
    SevenFieldsAccepted(s, fields);
  }

  /** An optional voice setting accepts a missing key or a number in [0, 1]. */
  lemma OptionalSettingAccepted(f: Field, fields: map<string, Json>, o: Option<real>)
    requires f.presence == Optional && f.kind == UnitInterval
    requires NumberFrom(fields, f.key, o) && (o.Some? ==> 0.0 <= o.value <= 1.0)
    ensures CheckField(f, fields).Ok?
  {
  }

  /** An optional string field without checks accepts a missing key or any string. */
  lemma OptionalUncheckedAccepted(f: Field, fields: map<string, Json>, o: Option<string>)
    requires f.presence == Optional && f.kind == Text([])
    requires StringFrom(fields, f.key, o)
    ensures CheckField(f, fields).Ok?
  {
  }

  /** A seven-field schema accepts a body every one of its fields accepts. */
  lemma SevenFieldsAccepted(s: seq<Field>, fields: map<string, Json>)
    requires |s| == 7
    requires CheckField(s[0], fields).Ok? && CheckField(s[1], fields).Ok? && CheckField(s[2], fields).Ok?
    requires CheckField(s[3], fields).Ok? && CheckField(s[4], fields).Ok? && CheckField(s[5], fields).Ok?
    requires CheckField(s[6], fields).Ok?
    ensures ParseFields(s, fields).Ok?
  {
  }

  /** The optional `name` accepts a missing key or a string of 1 to 100 characters. */
  lemma OptionalNameAccepted(fields: map<string, Json>, o: Option<string>)
    requires StringFrom(fields, "name", o) && (o.Some? ==> 1 <= |o.value| <= 100)
    ensures CheckField(NameField.(presence := Optional), fields).Ok?
  {
    if o.Some? {
      var c := NameField.kind.checks;
      assert Meets(o.value, c) <==> Passes(o.value, c[0]) && Passes(o.value, c[1]);
    }
  }

  /** An optional field whose one check is a minimum length of 1 accepts a
      missing key or a non-empty string. */
  lemma OptionalNonEmptyAccepted(f: Field, fields: map<string, Json>, o: Option<string>)
    requires f.presence == Optional && f.kind.Text? && |f.kind.checks| == 1
    requires f.kind.checks[0].MinLength? && f.kind.checks[0].min == 1
    requires StringFrom(fields, f.key, o) && (o.Some? ==> |o.value| >= 1)
    ensures CheckField(f, fields).Ok?
  {
    if o.Some? {
      assert Meets(o.value, f.kind.checks) <==> Passes(o.value, f.kind.checks[0]);
    }
  }

  /** `updateAgentSchema` does not look at `org_id`: whatever it holds, or
      whether it is there at all, the outcome is the same. */
  lemma UpdateIgnoresOrgId(fields: map<string, Json>, v: Json)
    ensures ValidateUpdateAgent(JObject(fields["org_id" := v])) == ValidateUpdateAgent(JObject(fields - {"org_id"}))
  {
    UpdateSchemaOmitsOrgId();
    ParseFieldsIgnoresKey(UpdateAgentSchema, fields, "org_id", v);
    SameParseSameUpdate(JObject(fields["org_id" := v]), JObject(fields - {"org_id"}));
  }

  /** No field of `updateAgentSchema` has the key `org_id`. */
  lemma UpdateSchemaOmitsOrgId()
    ensures forall i :: 0 <= i < |UpdateAgentSchema| ==> UpdateAgentSchema[i].key != "org_id"
  {
    UpdateSchemaFields(UpdateAgentSchema);
  }

  /** `ValidateUpdateAgent` is a function of the schema's parse alone. */
  lemma SameParseSameUpdate(b1: Json, b2: Json)
    requires b1.JObject? && b2.JObject?
    requires ParseFields(UpdateAgentSchema, b1.fields) == ParseFields(UpdateAgentSchema, b2.fields)
    ensures ValidateUpdateAgent(b1) == ValidateUpdateAgent(b2)
  {
  }

  /** The update schema is the partial form of the create schema: a body
      the create schema accepts is accepted by the update schema, which
      returns the same values for the keys the body holds. */
  lemma CreateAcceptedImpliesUpdateAccepted(body: Json)
    requires ValidateCreateAgent(body).Ok?
    ensures ValidateUpdateAgent(body).Ok?
    ensures var c, u := ValidateCreateAgent(body).value, ValidateUpdateAgent(body).value;
      && u.name == Some(c.name) && u.language == Some(c.language)
      && u.system_prompt == Some(c.system_prompt) && u.elevenlabs_voice_id == Some(c.elevenlabs_voice_id)
      && (u.voice_stability.Some? ==> u.voice_stability.value == c.voice_stability)
      && (u.voice_similarity_boost.Some? ==> u.voice_similarity_boost.value == c.voice_similarity_boost)
      && u.voice_style == c.voice_style
  {
    UpdateAcceptsCreateBodies(body.fields);
  }

  /** Every field set `createAgentSchema` accepts, `updateAgentSchema` accepts. */
  lemma UpdateAcceptsCreateBodies(fields: map<string, Json>)
    requires ParseFields(CreateAgentSchema, fields).Ok?
    ensures ParseFields(UpdateAgentSchema, fields).Ok?
  {
    var p := Partial(CreateAgentSchema);
    UpdateSchemaIsTail();
    PartialAcceptsMore(CreateAgentSchema, fields);
    forall i | 0 <= i < |UpdateAgentSchema| ensures CheckField(UpdateAgentSchema[i], fields).Ok? {
      assert UpdateAgentSchema[i] == p[i + 1];
    }
  }
}
