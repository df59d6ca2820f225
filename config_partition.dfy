/** The configuration form's save handler: form entries are flattened into a
    key/value object, every checkbox is forced to "true" or "false", and the
    result is split into an environment map (secrets and unknown keys) and a
    structured configuration record with the sections server, api, defaults
    and other. */
module ConfigPartition {
  import opened Wrappers

  /** The result of parseInt: None stands for NaN. */
  type IntParse = Option<int>

  /** The result of parseFloat: None stands for NaN. */
  type FloatParse = Option<real>

  /** The keys that are always kept in the environment map. */
  const SensitiveKeys: seq<string> :=
    ["API_KEY", "ADMIN_USERNAME", "ADMIN_PASSWORD", "JWT_SECRET", "PROXY", "SYSTEM_INSTRUCTION", "IMAGE_BASE_URL"]

  /** The structured fields the handler knows by name. */
  datatype Field =
    | Port | Host | MaxRequestSize
    | Temperature | TopP | TopK | MaxTokens
    | Timeout | SkipProjectIdFetch

  /** The form key that feeds each structured field. */
  function KeyOf(f: Field): string
  {
    match f
    case Port => "PORT"
    case Host => "HOST"
    case MaxRequestSize => "MAX_REQUEST_SIZE"
    case Temperature => "DEFAULT_TEMPERATURE"
    case TopP => "DEFAULT_TOP_P"
    case TopK => "DEFAULT_TOP_K"
    case MaxTokens => "DEFAULT_MAX_TOKENS"
    case Timeout => "TIMEOUT"
    case SkipProjectIdFetch => "SKIP_PROJECT_ID_FETCH"
  }

  /** The key-to-field dispatch of the handler's else-if chain. */
  function FieldOf(key: string): Option<Field>
  {
    if key == "PORT" then Some(Port)
    else if key == "HOST" then Some(Host)
    else if key == "MAX_REQUEST_SIZE" then Some(MaxRequestSize)
    else if key == "DEFAULT_TEMPERATURE" then Some(Temperature)
    else if key == "DEFAULT_TOP_P" then Some(TopP)
    else if key == "DEFAULT_TOP_K" then Some(TopK)
    else if key == "DEFAULT_MAX_TOKENS" then Some(MaxTokens)
    else if key == "TIMEOUT" then Some(Timeout)
    else if key == "SKIP_PROJECT_ID_FETCH" then Some(SkipProjectIdFetch)
    else None
  }

  /** Where a key ends up: the environment map or one structured field. */
  datatype Route = ToEnv | ToField(field: Field)

  function RouteOf(key: string): Route
  {
    if key in SensitiveKeys then ToEnv
    else match FieldOf(key)
      case None => ToEnv
      case Some(f) => ToField(f)
  }

  /** A section object; an unset property is None. */
  datatype ServerSection = ServerSection(port: Option<IntParse>, host: Option<string>, maxRequestSize: Option<string>)
  datatype DefaultsSection = DefaultsSection(temperature: Option<FloatParse>, topP: Option<FloatParse>, topK: Option<IntParse>, maxTokens: Option<IntParse>)
  datatype OtherSection = OtherSection(timeout: Option<IntParse>, skipProjectIdFetch: Option<bool>)

  /** The structured record; a missing section is None. The api section has
      no known properties, so it is an untyped object. */
  datatype JsonConfig = JsonConfig(
    server: Option<ServerSection>,
    api: Option<map<string, string>>,
    defaults: Option<DefaultsSection>,
    other: Option<OtherSection>)

  /** The record the handler starts from: four empty sections. */
  const EmptyConfig: JsonConfig :=
    JsonConfig(
      Some(ServerSection(None, None, None)),
      Some(map[]),
      Some(DefaultsSection(None, None, None, None)),
      Some(OtherSection(None, None)))

  /** Whether the property behind field f is set in the record. */
  predicate Stored(json: JsonConfig, f: Field)
  {
    match f
    case Port => json.server.Some? && json.server.value.port.Some?
    case Host => json.server.Some? && json.server.value.host.Some?
    case MaxRequestSize => json.server.Some? && json.server.value.maxRequestSize.Some?
    case Temperature => json.defaults.Some? && json.defaults.value.temperature.Some?
    case TopP => json.defaults.Some? && json.defaults.value.topP.Some?
    case TopK => json.defaults.Some? && json.defaults.value.topK.Some?
    case MaxTokens => json.defaults.Some? && json.defaults.value.maxTokens.Some?
    case Timeout => json.other.Some? && json.other.value.timeout.Some?
    case SkipProjectIdFetch => json.other.Some? && json.other.value.skipProjectIdFetch.Some?
  }

  /** Specification of the environment map: exactly the keys routed to it,
      with their values unchanged. */
  function EnvPartition(all: map<string, string>): map<string, string>
  {
    map k | k in all && RouteOf(k) == ToEnv :: all[k]
  }

  /** The value of a key, if present. */
  function Get(all: map<string, string>, key: string): Option<string>
  {
    if key in all then Some(all[key]) else None
  }

  function ParsedInt(all: map<string, string>, key: string, parseInt: string -> IntParse): Option<IntParse>
  {
    if key in all then Some(parseInt(all[key])) else None
  }

  function ParsedFloat(all: map<string, string>, key: string, parseFloat: string -> FloatParse): Option<FloatParse>
  {
    if key in all then Some(parseFloat(all[key])) else None
  }

  /** Specification of the structured record: each field is set exactly when
      its key is present, strings are stored raw, numbers as the parse result
      (NaN included), and the checkbox as a comparison with "true". */
  function StructuredPartition(all: map<string, string>, parseInt: string -> IntParse, parseFloat: string -> FloatParse): JsonConfig
  {
    JsonConfig(
      Some(ServerSection(
        ParsedInt(all, "PORT", parseInt),
        Get(all, "HOST"),
        Get(all, "MAX_REQUEST_SIZE"))),
      Some(map[]),
      Some(DefaultsSection(
        ParsedFloat(all, "DEFAULT_TEMPERATURE", parseFloat),
        ParsedFloat(all, "DEFAULT_TOP_P", parseFloat),
        ParsedInt(all, "DEFAULT_TOP_K", parseInt),
        ParsedInt(all, "DEFAULT_MAX_TOKENS", parseInt))),
      Some(OtherSection(
        ParsedInt(all, "TIMEOUT", parseInt),
        if "SKIP_PROJECT_ID_FETCH" in all then Some(all["SKIP_PROJECT_ID_FETCH"] == "true") else None)))
  }

  /** One write into the record: the property behind field f receives the
      value, converted as the field's type demands. */
  function Assign(json: JsonConfig, f: Field, value: string, parseInt: string -> IntParse, parseFloat: string -> FloatParse): JsonConfig
    requires json.server.Some? && json.defaults.Some? && json.other.Some?
  {
    match f
    case Port => json.(server := Some(json.server.value.(port := Some(parseInt(value)))))
    case Host => json.(server := Some(json.server.value.(host := Some(value))))
    case MaxRequestSize => json.(server := Some(json.server.value.(maxRequestSize := Some(value))))
    case Temperature => json.(defaults := Some(json.defaults.value.(temperature := Some(parseFloat(value)))))
    case TopP => json.(defaults := Some(json.defaults.value.(topP := Some(parseFloat(value)))))
    case TopK => json.(defaults := Some(json.defaults.value.(topK := Some(parseInt(value)))))
    case MaxTokens => json.(defaults := Some(json.defaults.value.(maxTokens := Some(parseInt(value)))))
    case Timeout => json.(other := Some(json.other.value.(timeout := Some(parseInt(value)))))
    case SkipProjectIdFetch => json.(other := Some(json.other.value.(skipProjectIdFetch := Some(value == "true"))))
  }

  /** Adding one key to the handled part of the form changes the
      environment map only if the key is routed there. */
  lemma EnvStep(m: map<string, string>, key: string, value: string)
    requires key !in m
    ensures EnvPartition(m[key := value]) ==
      if RouteOf(key) == ToEnv then EnvPartition(m)[key := value] else EnvPartition(m)
  {
  }

  /** Adding one key to the handled part of the form writes only the field
      that key is routed to, if any. */
  lemma StructuredStep(m: map<string, string>, key: string, value: string, parseInt: string -> IntParse, parseFloat: string -> FloatParse)
    requires key !in m
    ensures StructuredPartition(m[key := value], parseInt, parseFloat) ==
      match RouteOf(key)
      case ToEnv => StructuredPartition(m, parseInt, parseFloat)
      case ToField(f) => Assign(StructuredPartition(m, parseInt, parseFloat), f, value, parseInt, parseFloat)
  {
    var m' := m[key := value];
    if key in SensitiveKeys {
      forall f: Field ensures KeyOf(f) in m' <==> KeyOf(f) in m {
      }
    } else {
      match FieldOf(key)
      case None =>
      case Some(Port) =>
      case Some(Host) =>
      case Some(MaxRequestSize) =>
      case Some(Temperature) =>
      case Some(TopP) =>
      case Some(TopK) =>
      case Some(MaxTokens) =>
      case Some(Timeout) =>
      case Some(SkipProjectIdFetch) =>
    }
  }

  /** Splits the flattened form into the environment map and the structured
      record. The keys are visited in an arbitrary order, so the
      postcondition holds whatever order the object's entries come in. */
  method Partition(all: map<string, string>, parseInt: string -> IntParse, parseFloat: string -> FloatParse)
    returns (env: map<string, string>, json: JsonConfig)
    ensures env == EnvPartition(all)
    ensures json == StructuredPartition(all, parseInt, parseFloat)
  {
    env := map[];
    json := EmptyConfig;
    var todo := all.Keys;
    while todo != {}
      invariant todo <= all.Keys
      invariant env == EnvPartition(all - todo)
      invariant json == StructuredPartition(all - todo, parseInt, parseFloat)
      decreases todo
    {
      var key :| key in todo;
      var value := all[key];
      assert all - (todo - {key}) == (all - todo)[key := value];
      EnvStep(all - todo, key, value);
      StructuredStep(all - todo, key, value, parseInt, parseFloat);
      if key in SensitiveKeys {
        env := env[key := value];
      } else if key == "PORT" {
        json := json.(server := Some(json.server.value.(port := Some(parseInt(value)))));
      } else if key == "HOST" {
        json := json.(server := Some(json.server.value.(host := Some(value))));
      } else if key == "MAX_REQUEST_SIZE" {
        json := json.(server := Some(json.server.value.(maxRequestSize := Some(value))));
      } else if key == "DEFAULT_TEMPERATURE" {
        json := json.(defaults := Some(json.defaults.value.(temperature := Some(parseFloat(value)))));
      } else if key == "DEFAULT_TOP_P" {
        json := json.(defaults := Some(json.defaults.value.(topP := Some(parseFloat(value)))));
      } else if key == "DEFAULT_TOP_K" {
        json := json.(defaults := Some(json.defaults.value.(topK := Some(parseInt(value)))));
      } else if key == "DEFAULT_MAX_TOKENS" {
        json := json.(defaults := Some(json.defaults.value.(maxTokens := Some(parseInt(value)))));
      } else if key == "TIMEOUT" {
        json := json.(other := Some(json.other.value.(timeout := Some(parseInt(value)))));
      } else if key == "SKIP_PROJECT_ID_FETCH" {
        json := json.(other := Some(json.other.value.(skipProjectIdFetch := Some(value == "true"))));
      } else {
        env := env[key := value];
      }
      todo := todo - {key};
    }
    assert all - todo == all;
  }

  // ----- Flattening the form -----

  /** A checkbox of the form: its name and whether it is ticked. */
  datatype Checkbox = Checkbox(name: string, checked: bool)

  /** The object obtained by assigning the pairs in order onto m; a later
      assignment to a key overrides an earlier one. */
  function Overlay(m: map<string, string>, writes: seq<(string, string)>): map<string, string>
  {
    if writes == [] then m
    else
      var last := writes[|writes| - 1];
      Overlay(m, writes[..|writes| - 1])[last.0 := last.1]
  }

  function BoolText(b: bool): string
  {
    if b then "true" else "false"
  }

  /** The assignments the checkbox loop performs, in document order. */
  function CheckboxWrites(boxes: seq<Checkbox>): seq<(string, string)>
  {
    seq(|boxes|, i requires 0 <= i < |boxes| => (boxes[i].name, BoolText(boxes[i].checked)))
  }

  /** The object the handler partitions: the form entries, then every
      checkbox written as "true" or "false". */
  function Submitted(entries: seq<(string, string)>, boxes: seq<Checkbox>): map<string, string>
  {
    Overlay(Overlay(map[], entries), CheckboxWrites(boxes))
  }

  /** A key no assignment names keeps its old presence and value. */
  lemma {:induction false} OverlayUntouched(m: map<string, string>, writes: seq<(string, string)>, key: string)
    requires forall i | 0 <= i < |writes| :: writes[i].0 != key
    ensures key in Overlay(m, writes) <==> key in m
    ensures key in m ==> Overlay(m, writes)[key] == m[key]
  {
    if writes != [] {
      OverlayUntouched(m, writes[..|writes| - 1], key);
    }
  }

  /** A key ends with the value of the last assignment that names it. */
  lemma {:induction false} OverlayLastWrite(m: map<string, string>, writes: seq<(string, string)>, i: nat)
    requires i < |writes|
    requires forall j | i < j < |writes| :: writes[j].0 != writes[i].0
    ensures writes[i].0 in Overlay(m, writes)
    ensures Overlay(m, writes)[writes[i].0] == writes[i].1
  {
    if i < |writes| - 1 {
      OverlayLastWrite(m, writes[..|writes| - 1], i);
    }
  }

  /** A key some assignment names ends with a value one of them wrote. */
  lemma {:induction false} OverlayWritten(m: map<string, string>, writes: seq<(string, string)>, i: nat)
    requires i < |writes|
    ensures writes[i].0 in Overlay(m, writes)
    ensures exists j | 0 <= j < |writes| :: writes[j] == (writes[i].0, Overlay(m, writes)[writes[i].0])
  {
    var last := writes[|writes| - 1];
    if last.0 == writes[i].0 {
      assert writes[|writes| - 1] == (writes[i].0, Overlay(m, writes)[writes[i].0]);
    } else {
      OverlayWritten(m, writes[..|writes| - 1], i);
      var j :| 0 <= j < |writes| - 1 && writes[..|writes| - 1][j] == (writes[i].0, Overlay(m, writes[..|writes| - 1])[writes[i].0]);
      assert writes[j] == (writes[i].0, Overlay(m, writes)[writes[i].0]);
    }
  }

  /** After normalisation every checkbox name holds exactly "true" or
      "false", whatever the form entries held for it. */
  lemma CheckboxIsBoolText(entries: seq<(string, string)>, boxes: seq<Checkbox>, i: nat)
    requires i < |boxes|
    ensures boxes[i].name in Submitted(entries, boxes)
    ensures Submitted(entries, boxes)[boxes[i].name] == "true" || Submitted(entries, boxes)[boxes[i].name] == "false"
  {
    var w := CheckboxWrites(boxes);
    OverlayWritten(Overlay(map[], entries), w, i);
  }

  /** The last checkbox of a name decides that name's value. */
  lemma CheckboxLastWins(entries: seq<(string, string)>, boxes: seq<Checkbox>, i: nat)
    requires i < |boxes|
    requires forall j | i < j < |boxes| :: boxes[j].name != boxes[i].name
    ensures boxes[i].name in Submitted(entries, boxes)
    ensures Submitted(entries, boxes)[boxes[i].name] == BoolText(boxes[i].checked)
  {
    OverlayLastWrite(Overlay(map[], entries), CheckboxWrites(boxes), i);
  }

  /** A key that is not a checkbox name keeps what the form entries gave it. */
  lemma NonCheckboxKeepsEntry(entries: seq<(string, string)>, boxes: seq<Checkbox>, key: string)
    requires forall i | 0 <= i < |boxes| :: boxes[i].name != key
    ensures key in Submitted(entries, boxes) <==> key in Overlay(map[], entries)
    ensures key in Overlay(map[], entries) ==> Submitted(entries, boxes)[key] == Overlay(map[], entries)[key]
  {
    OverlayUntouched(Overlay(map[], entries), CheckboxWrites(boxes), key);
  }

  /** Copies the form entries into an object, later entries overriding. */
  method FlattenEntries(entries: seq<(string, string)>) returns (all: map<string, string>)
    ensures all == Overlay(map[], entries)
  {
    all := map[];
    for i := 0 to |entries|
      invariant all == Overlay(map[], entries[..i])
    {
      assert entries[..i + 1][..i] == entries[..i];
      all := all[entries[i].0 := entries[i].1];
    }
    assert entries[..|entries|] == entries;
  }

  /** Overwrites each checkbox name with "true" or "false". */
  method NormalizeCheckboxes(all: map<string, string>, boxes: seq<Checkbox>) returns (result: map<string, string>)
    ensures result == Overlay(all, CheckboxWrites(boxes))
  {
    result := all;
    for i := 0 to |boxes|
      invariant result == Overlay(all, CheckboxWrites(boxes)[..i])
    {
      assert CheckboxWrites(boxes)[..i + 1][..i] == CheckboxWrites(boxes)[..i];
      result := result[boxes[i].name := if boxes[i].checked then "true" else "false"];
    }
    assert CheckboxWrites(boxes)[..|boxes|] == CheckboxWrites(boxes);
  }

  /** The whole save handler up to the request: flatten, normalise the
      checkboxes, partition. */
  method SaveConfig(entries: seq<(string, string)>, boxes: seq<Checkbox>, parseInt: string -> IntParse, parseFloat: string -> FloatParse)
    returns (env: map<string, string>, json: JsonConfig)
    ensures env == EnvPartition(Submitted(entries, boxes))
    ensures json == StructuredPartition(Submitted(entries, boxes), parseInt, parseFloat)
  {
    var all := FlattenEntries(entries);
    all := NormalizeCheckboxes(all, boxes);
    env, json := Partition(all, parseInt, parseFloat);
  }

  // ----- Properties of the partition -----

  /** The dispatch table is consistent: every field's key dispatches back to
      that field and is not a sensitive key, and only that key does. */
  lemma DispatchTable(key: string, f: Field)
    ensures FieldOf(KeyOf(f)) == Some(f)
    ensures KeyOf(f) !in SensitiveKeys
    ensures RouteOf(KeyOf(f)) == ToField(f)
    ensures FieldOf(key) == Some(f) <==> key == KeyOf(f)
  {
  }

  /** A sensitive key is copied unchanged into the environment map, and the
      structured record does not depend on it. */
  lemma SensitiveKeyStaysInEnv(all: map<string, string>, key: string, value: string, parseInt: string -> IntParse, parseFloat: string -> FloatParse)
    requires key in SensitiveKeys
    ensures key in all ==> key in EnvPartition(all) && EnvPartition(all)[key] == all[key]
    ensures StructuredPartition(all[key := value], parseInt, parseFloat) == StructuredPartition(all, parseInt, parseFloat)
    ensures StructuredPartition(all - {key}, parseInt, parseFloat) == StructuredPartition(all, parseInt, parseFloat)
  {
  }

  /** A key that is neither sensitive nor a known field falls back into the
      environment map unchanged, and the structured record does not depend
      on it. */
  lemma UnknownKeyFallsBackToEnv(all: map<string, string>, key: string, value: string, parseInt: string -> IntParse, parseFloat: string -> FloatParse)
    requires FieldOf(key) == None
    ensures key in all ==> key in EnvPartition(all) && EnvPartition(all)[key] == all[key]
    ensures StructuredPartition(all[key := value], parseInt, parseFloat) == StructuredPartition(all, parseInt, parseFloat)
    ensures StructuredPartition(all - {key}, parseInt, parseFloat) == StructuredPartition(all, parseInt, parseFloat)
  {
  }

  /** Every input key reaches exactly one destination: the environment map
      or the one structured field it names; nothing else is filled. */
  lemma ExactlyOneDestination(all: map<string, string>, parseInt: string -> IntParse, parseFloat: string -> FloatParse)
    ensures forall k | k in all ::
      (k in EnvPartition(all)) != (RouteOf(k).ToField? && Stored(StructuredPartition(all, parseInt, parseFloat), RouteOf(k).field))
    ensures forall k | k in EnvPartition(all) :: k in all && EnvPartition(all)[k] == all[k]
    ensures forall f: Field :: Stored(StructuredPartition(all, parseInt, parseFloat), f) <==> KeyOf(f) in all
  {
    forall f: Field
      ensures Stored(StructuredPartition(all, parseInt, parseFloat), f) <==> KeyOf(f) in all
    {
    }
  }

  /** The record always has its four sections, and api is left empty. */
  lemma SectionsAlwaysPresent(all: map<string, string>, parseInt: string -> IntParse, parseFloat: string -> FloatParse)
    ensures StructuredPartition(all, parseInt, parseFloat).server.Some?
    ensures StructuredPartition(all, parseInt, parseFloat).api == Some(map[])
    ensures StructuredPartition(all, parseInt, parseFloat).defaults.Some?
    ensures StructuredPartition(all, parseInt, parseFloat).other.Some?
  {
  }

  /** A failed integer parse is stored as NaN; the field is not omitted. */
  lemma FailedParseIsStored(all: map<string, string>, f: Field, parseInt: string -> IntParse, parseFloat: string -> FloatParse)
    requires f == Port || f == TopK || f == MaxTokens || f == Timeout
    requires KeyOf(f) in all && parseInt(all[KeyOf(f)]) == None
    ensures Stored(StructuredPartition(all, parseInt, parseFloat), f)
    ensures var json := StructuredPartition(all, parseInt, parseFloat);
      match f
      case Port => json.server.value.port == Some(None)
      case TopK => json.defaults.value.topK == Some(None)
      case MaxTokens => json.defaults.value.maxTokens == Some(None)
      case Timeout => json.other.value.timeout == Some(None)
      case _ => false
  {
  }

  /** The save of PORT, API_KEY and DEFAULT_TEMPERATURE. */
  lemma ExampleSave(parseInt: string -> IntParse, parseFloat: string -> FloatParse)
    ensures var all := map["PORT" := "8080", "API_KEY" := "secret1", "DEFAULT_TEMPERATURE" := "0.7"];
      EnvPartition(all) == map["API_KEY" := "secret1"] &&
      StructuredPartition(all, parseInt, parseFloat) ==
        JsonConfig(
          Some(ServerSection(Some(parseInt("8080")), None, None)),
          Some(map[]),
          Some(DefaultsSection(Some(parseFloat("0.7")), None, None, None)),
          Some(OtherSection(None, None)))
  {
    var all := map["PORT" := "8080", "API_KEY" := "secret1", "DEFAULT_TEMPERATURE" := "0.7"];
    assert EnvPartition(all).Keys == {"API_KEY"};
  }
}
