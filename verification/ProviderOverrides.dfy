/**
 `--set KEY=VALUE`: a runtime config turned into a JSON tree, edited path by path inside the selected
 provider's section, turned back and validated.
 */
module ProviderOverrides {
  import opened Common
  import opened RuntimeConfigs
  import Text

  datatype Json =
    | Null
    | Bool(flag: bool)
    | Integer(number: int)
    | Fraction(literal: string)
    | String(text: string)
    | Array(items: seq<Json>)
    | Object(fields: map<string, Json>)

  datatype SetError =
    | UnknownProvider(provider: string)
    | ExpectedKeyValue(assignment: string)
    | InvalidAssignment(assignment: string)
    | InvalidSettingName(key: string)
    | UnknownSection(section: string)
    | NotATable(key: string)
    | UnknownSetting(key: string)
    | InvalidQuoted(key: string)
    | InvalidLiteral(key: string)
    | InvalidSettings
    | InvalidConfig(error: ConfigError)

  type Outcome<T> = Result<T, SetError>

  // ----------------------------------------------------- configs as JSON trees

  function EncodeCollector(c: CollectorConfig): Json {
    Object(map["enabled" := Bool(c.enabled), "interval_seconds" := Integer(c.intervalSeconds)])
  }

  function EncodeStorage(s: StorageConfig): Json {
    Object(map[
      "enabled" := Bool(s.enabled),
      "interval_seconds" := Integer(s.intervalSeconds),
      "mounts" := Array(seq(|s.mounts|, i requires 0 <= i < |s.mounts| => String(s.mounts[i])))])
  }

  function EncodeAgent(a: AgentSettings): Json {
    Object(map[
      "config_poll_interval_seconds" := Integer(a.configPollIntervalSeconds),
      "heartbeat_interval_seconds" := Integer(a.heartbeatIntervalSeconds)])
  }

  function EncodePodDiscovery(p: PodDiscoveryConfig): Json {
    Object(map["cri_socket" := String(p.criSocket)])
  }

  const SECTIONS: set<string> :=
    {"version", "agent", "storage", "memory", "cpu", "network", "disk_io", "pod_discovery", "tcp"}

  function EncodeSection(c: RuntimeConfig, key: string): Json {
    if key == "version" then String(c.version)
    else if key == "agent" then EncodeAgent(c.settings.agent)
    else if key == "storage" then EncodeStorage(c.settings.storage)
    else if key == "pod_discovery" then EncodePodDiscovery(c.settings.podDiscovery)
    else EncodeCollector(CollectorOf(c.settings, key))
  }

  /** The settings of a provider that has no more than a switch and an interval. */
  function CollectorOf(s: Settings, provider: string): CollectorConfig {
    if provider == "memory" then s.memory
    else if provider == "cpu" then s.cpu
    else if provider == "network" then s.network
    else if provider == "disk_io" then s.diskIo
    else s.tcp
  }

  function Encode(c: RuntimeConfig): Json {
    Object(map key | key in SECTIONS :: EncodeSection(c, key))
  }

  function Table(j: Json): Outcome<map<string, Json>> {
    if j.Object? then Ok(j.fields) else Err(InvalidSettings)
  }

  function NumberAt(t: map<string, Json>, key: string, fallback: u64): Outcome<u64> {
    if key !in t then Ok(fallback)
    else if t[key].Integer? && 0 <= t[key].number < U64_LIMIT then Ok(t[key].number)
    else Err(InvalidSettings)
  }

  function FlagAt(t: map<string, Json>, key: string, fallback: bool): Outcome<bool> {
    if key !in t then Ok(fallback) else if t[key].Bool? then Ok(t[key].flag) else Err(InvalidSettings)
  }

  function TextAt(t: map<string, Json>, key: string, fallback: string): Outcome<string> {
    if key !in t then Ok(fallback) else if t[key].String? then Ok(t[key].text) else Err(InvalidSettings)
  }

  function TextsAt(t: map<string, Json>, key: string, fallback: seq<string>): Outcome<seq<string>> {
    if key !in t then Ok(fallback)
    else if t[key].Array? && forall i :: 0 <= i < |t[key].items| ==> t[key].items[i].String? then
      var items := t[key].items;
      Ok(seq(|items|, i requires 0 <= i < |items| => items[i].text))
    else Err(InvalidSettings)
  }

  function CollectorAt(t: map<string, Json>, key: string, fallback: CollectorConfig): Outcome<CollectorConfig> {
    if key !in t then Ok(fallback)
    else
      var section :- Table(t[key]);
      var enabled :- FlagAt(section, "enabled", fallback.enabled);
      var interval :- NumberAt(section, "interval_seconds", fallback.intervalSeconds);
      Ok(CollectorConfig(enabled, interval))
  }

  function StorageAt(t: map<string, Json>, fallback: StorageConfig): Outcome<StorageConfig> {
    if "storage" !in t then Ok(fallback)
    else
      var section :- Table(t["storage"]);
      var enabled :- FlagAt(section, "enabled", fallback.enabled);
      var interval :- NumberAt(section, "interval_seconds", fallback.intervalSeconds);
      var mounts :- TextsAt(section, "mounts", fallback.mounts);
      Ok(StorageConfig(enabled, interval, mounts))
  }

  function AgentAt(t: map<string, Json>, fallback: AgentSettings): Outcome<AgentSettings> {
    if "agent" !in t then Ok(fallback)
    else
      var section :- Table(t["agent"]);
      var poll :- NumberAt(section, "config_poll_interval_seconds", fallback.configPollIntervalSeconds);
      var heartbeat :- NumberAt(section, "heartbeat_interval_seconds", fallback.heartbeatIntervalSeconds);
      Ok(AgentSettings(poll, heartbeat))
  }

  function PodDiscoveryAt(t: map<string, Json>, fallback: PodDiscoveryConfig): Outcome<PodDiscoveryConfig> {
    if "pod_discovery" !in t then Ok(fallback)
    else
      var section :- Table(t["pod_discovery"]);
      var socket :- TextAt(section, "cri_socket", fallback.criSocket);
      Ok(PodDiscoveryConfig(socket))
  }

  /** Typed reading of a tree: missing sections and fields take their defaults, the version has none. */
  function Decode(j: Json): Outcome<RuntimeConfig> {
    var t :- Table(j);
    if "version" !in t then Err(InvalidSettings)
    else
      var version :- TextAt(t, "version", "");
      var agent :- AgentAt(t, DEFAULT_SETTINGS.agent);
      var storage :- StorageAt(t, DEFAULT_SETTINGS.storage);
      var memory :- CollectorAt(t, "memory", DEFAULT_SETTINGS.memory);
      var cpu :- CollectorAt(t, "cpu", DEFAULT_SETTINGS.cpu);
      var network :- CollectorAt(t, "network", DEFAULT_SETTINGS.network);
      var diskIo :- CollectorAt(t, "disk_io", DEFAULT_SETTINGS.diskIo);
      var podDiscovery :- PodDiscoveryAt(t, DEFAULT_SETTINGS.podDiscovery);
      var tcp :- CollectorAt(t, "tcp", DEFAULT_SETTINGS.tcp);
      Ok(RuntimeConfig(version, Settings(agent, storage, memory, cpu, network, diskIo, podDiscovery, tcp)))
  }

  lemma CollectorBack(t: map<string, Json>, key: string, c: CollectorConfig, fallback: CollectorConfig)
    requires key in t && t[key] == EncodeCollector(c)
    ensures CollectorAt(t, key, fallback) == Ok(c)
  {
  }

  lemma StorageBack(t: map<string, Json>, s: StorageConfig)
    requires "storage" in t && t["storage"] == EncodeStorage(s)
    ensures StorageAt(t, DEFAULT_SETTINGS.storage) == Ok(s)
  {
    var mounts := TextsAt(EncodeStorage(s).fields, "mounts", DEFAULT_SETTINGS.storage.mounts);
    assert mounts.Ok? && mounts.value == s.mounts;
  }

  lemma AgentBack(t: map<string, Json>, a: AgentSettings)
    requires "agent" in t && t["agent"] == EncodeAgent(a)
    ensures AgentAt(t, DEFAULT_SETTINGS.agent) == Ok(a)
  {
  }

  lemma EncodedSections(c: RuntimeConfig)
    ensures var t, s := Encode(c).fields, c.settings;
            && "version" in t && t["version"] == String(c.version)
            && "agent" in t && t["agent"] == EncodeAgent(s.agent)
            && "storage" in t && t["storage"] == EncodeStorage(s.storage)
            && "memory" in t && t["memory"] == EncodeCollector(s.memory)
            && "cpu" in t && t["cpu"] == EncodeCollector(s.cpu)
            && "network" in t && t["network"] == EncodeCollector(s.network)
            && "disk_io" in t && t["disk_io"] == EncodeCollector(s.diskIo)
            && "pod_discovery" in t && t["pod_discovery"] == EncodePodDiscovery(s.podDiscovery)
            && "tcp" in t && t["tcp"] == EncodeCollector(s.tcp)
  {
  }

  /** Nothing is lost on the way into a tree and back. */
  lemma DecodeEncode(c: RuntimeConfig)
    ensures Decode(Encode(c)) == Ok(c)
  {
    var t, s, d := Encode(c).fields, c.settings, DEFAULT_SETTINGS;
    EncodedSections(c);
    AgentBack(t, s.agent);
    StorageBack(t, s.storage);
    CollectorBack(t, "memory", s.memory, d.memory);
    CollectorBack(t, "cpu", s.cpu, d.cpu);
    CollectorBack(t, "network", s.network, d.network);
    CollectorBack(t, "disk_io", s.diskIo, d.diskIo);
    CollectorBack(t, "tcp", s.tcp, d.tcp);
  }

  // ------------------------------------------------------------ tree positions

  predicate Reaches(j: Json, path: seq<string>) {
    path != [] ==> j.Object? && path[0] in j.fields && Reaches(j.fields[path[0]], path[1..])
  }

  /** Walks down named fields; `key` only labels the errors. */
  function At(j: Json, path: seq<string>, key: string): (r: Outcome<Json>)
    ensures r.Ok? <==> Reaches(j, path)
    decreases |path|
  {
    if path == [] then Ok(j)
    else if !j.Object? then Err(NotATable(key))
    else if path[0] !in j.fields then Err(UnknownSetting(key))
    else At(j.fields[path[0]], path[1..], key)
  }

  /** The tree after the node at `path` was overwritten. */
  function Put(j: Json, path: seq<string>, x: Json): Json
    requires Reaches(j, path)
    decreases |path|
  {
    if path == [] then x
    else Object(j.fields[path[0] := Put(j.fields[path[0]], path[1..], x)])
  }

  predicate Diverge(p: seq<string>, q: seq<string>) {
    p != [] && q != [] && (p[0] != q[0] || Diverge(p[1..], q[1..]))
  }

  /** The overwritten node reads as written, and every position off that path reads as before. */
  lemma {:induction false} PutThenAt(j: Json, path: seq<string>, x: Json, other: seq<string>, key: string)
    requires Reaches(j, path)
    ensures At(Put(j, path, x), path, key) == Ok(x)
    ensures Diverge(path, other) ==> At(Put(j, path, x), other, key) == At(j, other, key)
    decreases |path|
  {
    if path != [] {
      var rest := if other != [] then other[1..] else [];
      PutThenAt(j.fields[path[0]], path[1..], x, rest, key);
    }
  }

  lemma PutKeepsKeys(j: Json, path: seq<string>, x: Json)
    requires path != [] && Reaches(j, path)
    ensures var after := Put(j, path, x);
            && after.Object? && after.fields.Keys == j.fields.Keys
            && forall k :: k in j.fields && k != path[0] ==> after.fields[k] == j.fields[k]
  {
  }

  // ----------------------------------------------------------------- overrides

  const PROVIDERS: set<string> := {"storage", "memory", "cpu", "network", "tcp", "disk_io"}

  /** The sections a provider's settings may live in. */
  predicate Selected(provider: string, section: string) {
    section == provider || (provider == "tcp" && section == "pod_discovery")
  }

  datatype Assignment = Assignment(key: string, section: string, fields: seq<string>, raw: string)

  function ReadAssignment(provider: string, text: string): (r: Outcome<Assignment>)
    ensures r.Ok? ==> Selected(provider, r.value.section) && r.value.fields != [] && r.value.raw != ""
  {
    match Text.SplitOnce(text, "=")
    case None => Err(ExpectedKeyValue(text))
    case Some((left, right)) =>
      var key, raw := Text.Trim(left), Text.Trim(right);
      if key == "" || raw == "" then Err(InvalidAssignment(text))
      else
        var pieces := Text.Split(key, '.');
        var named := Selected(provider, pieces[0]);
        var fields := if named then pieces[1..] else pieces;
        if fields == [] || "" in fields then Err(InvalidSettingName(key))
        else Ok(Assignment(key, if named then pieces[0] else provider, fields, raw))
  }

  /** The JSON library: a quoted string, or any literal. */
  datatype Parsers = Parsers(quoted: string -> Option<string>, literal: string -> Option<Json>)

  /** What replaces a node: strings may be given bare, anything else must be a JSON literal. */
  function NewLeaf(p: Parsers, key: string, target: Json, raw: string): Outcome<Json>
    requires raw != ""
  {
    if target.String? then
      if raw[0] != '"' then Ok(String(raw))
      else if p.quoted(raw).Some? then Ok(String(p.quoted(raw).value))
      else Err(InvalidQuoted(key))
    else if p.literal(raw).Some? then Ok(p.literal(raw).value)
    else Err(InvalidLiteral(key))
  }

  function ApplyOne(p: Parsers, provider: string, value: Json, text: string): Outcome<Json> {
    var a :- ReadAssignment(provider, text);
    if !value.Object? || a.section !in value.fields then Err(UnknownSection(a.section))
    else
      var target :- At(value.fields[a.section], a.fields, a.key);
      var leaf :- NewLeaf(p, a.key, target, a.raw);
      Ok(Object(value.fields[a.section := Put(value.fields[a.section], a.fields, leaf)]))
  }

  function ApplyAll(p: Parsers, provider: string, value: Json, overrides: seq<string>): Outcome<Json>
    decreases |overrides|
  {
    if overrides == [] then Ok(value)
    else
      var next :- ApplyOne(p, provider, value, overrides[0]);
      ApplyAll(p, provider, next, overrides[1..])
  }

  function Finish(value: Json): (r: Outcome<RuntimeConfig>)
    ensures r.Ok? ==> Valid(r.value)
  {
    var config :- Decode(value);
    var checked := Validate(config);
    if checked.Ok? then Ok(config) else Err(InvalidConfig(checked.error))
  }

  function Overridden(p: Parsers, config: RuntimeConfig, provider: string, overrides: seq<string>): Outcome<RuntimeConfig> {
    if provider !in PROVIDERS then Err(UnknownProvider(provider))
    else if overrides == [] then Ok(config)
    else
      var value :- ApplyAll(p, provider, Encode(config), overrides);
      Finish(value)
  }

  /** `with_provider_overrides`: a loop over assignments, each with a cursor walked down the tree. */
  method WithProviderOverrides(p: Parsers, config: RuntimeConfig, provider: string, overrides: seq<string>)
    returns (r: Outcome<RuntimeConfig>)
    ensures r == Overridden(p, config, provider, overrides)
  {
    if provider !in PROVIDERS {
      return Err(UnknownProvider(provider));
    }
    if overrides == [] {
      return Ok(config);
    }
    var value := Encode(config);
    assert overrides[0..] == overrides;
    for i := 0 to |overrides|
      invariant ApplyAll(p, provider, value, overrides[i..]) == ApplyAll(p, provider, Encode(config), overrides)
    {
      assert overrides[i..][0] == overrides[i] && overrides[i..][1..] == overrides[i + 1..];
      var a := ReadAssignment(provider, overrides[i]);
      if a.Err? {
        return Err(a.error);
      }
      var Assignment(key, section, fields, raw) := a.value;
      if !value.Object? || section !in value.fields {
        return Err(UnknownSection(section));
      }
      var target := Walk(value.fields[section], fields, key);
      if target.Err? {
        return Err(target.error);
      }
      var leaf := NewLeaf(p, key, target.value, raw);
      if leaf.Err? {
        return Err(leaf.error);
      }
      value := Object(value.fields[section := Put(value.fields[section], fields, leaf.value)]);
    }
    return Finish(value);
  }

  /** The cursor: one table per field name, down to the node to overwrite. */
  method Walk(section: Json, fields: seq<string>, key: string) returns (r: Outcome<Json>)
    ensures r == At(section, fields, key)
  {
    var target := section;
    assert fields[0..] == fields;
    for i := 0 to |fields|
      invariant At(target, fields[i..], key) == At(section, fields, key)
    {
      assert fields[i..][0] == fields[i] && fields[i..][1..] == fields[i + 1..];
      if !target.Object? {
        return Err(NotATable(key));
      }
      if fields[i] !in target.fields {
        return Err(UnknownSetting(key));
      }
      target := target.fields[fields[i]];
    }
    return Ok(target);
  }

  // --------------------------------------------------------------------- frame

  /** Same sections and keys; outside the selected sections everything is the same. */
  predicate SameOutside(provider: string, a: Json, b: Json) {
    && a.Object? && b.Object? && a.fields.Keys == b.fields.Keys
    && forall k :: k in a.fields ==>
      if Selected(provider, k) then SameKeys(a.fields[k], b.fields[k]) else a.fields[k] == b.fields[k]
  }

  predicate SameKeys(a: Json, b: Json) {
    a.Object? && b.Object? && a.fields.Keys == b.fields.Keys
  }

  lemma OneStaysInside(p: Parsers, provider: string, value: Json, text: string)
    requires SameOutside(provider, value, value)
    requires ApplyOne(p, provider, value, text).Ok?
    ensures SameOutside(provider, value, ApplyOne(p, provider, value, text).value)
  {
    var a := ReadAssignment(provider, text).value;
    var target := At(value.fields[a.section], a.fields, a.key);
    var leaf := NewLeaf(p, a.key, target.value, a.raw).value;
    PutKeepsKeys(value.fields[a.section], a.fields, leaf);
  }

  lemma {:induction false} AllStayInside(p: Parsers, provider: string, value: Json, overrides: seq<string>)
    requires SameOutside(provider, value, value)
    requires ApplyAll(p, provider, value, overrides).Ok?
    ensures SameOutside(provider, value, ApplyAll(p, provider, value, overrides).value)
    decreases |overrides|
  {
    if overrides != [] {
      OneStaysInside(p, provider, value, overrides[0]);
      AllStayInside(p, provider, ApplyOne(p, provider, value, overrides[0]).value, overrides[1..]);
    }
  }

  lemma SectionsAreTables(config: RuntimeConfig, provider: string)
    requires provider in PROVIDERS
    ensures SameOutside(provider, Encode(config), Encode(config))
    ensures provider in Encode(config).fields && provider != "version" && provider != "agent"
  {
    EncodedSections(config);
  }

  /** What a command may change: the selected provider's settings, and pod discovery for `tcp`. */
  predicate OnlySelected(provider: string, before: RuntimeConfig, after: RuntimeConfig) {
    var s, t := before.settings, after.settings;
    && after.version == before.version
    && t.agent == s.agent
    && (provider != "storage" ==> t.storage == s.storage)
    && (provider != "memory" ==> t.memory == s.memory)
    && (provider != "cpu" ==> t.cpu == s.cpu)
    && (provider != "network" ==> t.network == s.network)
    && (provider != "disk_io" ==> t.diskIo == s.diskIo)
    && (provider != "tcp" ==> t.tcp == s.tcp && t.podDiscovery == s.podDiscovery)
  }

  lemma DecodeParts(value: Json)
    requires Decode(value).Ok?
    ensures value.Object? && "version" in value.fields
    ensures var t, c, d := value.fields, Decode(value).value, DEFAULT_SETTINGS;
            && TextAt(t, "version", "") == Ok(c.version)
            && AgentAt(t, d.agent) == Ok(c.settings.agent)
            && StorageAt(t, d.storage) == Ok(c.settings.storage)
            && CollectorAt(t, "memory", d.memory) == Ok(c.settings.memory)
            && CollectorAt(t, "cpu", d.cpu) == Ok(c.settings.cpu)
            && CollectorAt(t, "network", d.network) == Ok(c.settings.network)
            && CollectorAt(t, "disk_io", d.diskIo) == Ok(c.settings.diskIo)
            && PodDiscoveryAt(t, d.podDiscovery) == Ok(c.settings.podDiscovery)
            && CollectorAt(t, "tcp", d.tcp) == Ok(c.settings.tcp)
  {
  }

  lemma KeptCollector(provider: string, a: Json, b: Json, key: string, fallback: CollectorConfig)
    requires SameOutside(provider, a, b) && !Selected(provider, key)
    ensures CollectorAt(b.fields, key, fallback) == CollectorAt(a.fields, key, fallback)
  {
  }

  lemma KeptOthers(provider: string, a: Json, b: Json)
    requires provider in PROVIDERS && SameOutside(provider, a, b)
    ensures TextAt(b.fields, "version", "") == TextAt(a.fields, "version", "")
    ensures AgentAt(b.fields, DEFAULT_SETTINGS.agent) == AgentAt(a.fields, DEFAULT_SETTINGS.agent)
    ensures provider != "storage" ==>
              StorageAt(b.fields, DEFAULT_SETTINGS.storage) == StorageAt(a.fields, DEFAULT_SETTINGS.storage)
    ensures provider != "tcp" ==>
              PodDiscoveryAt(b.fields, DEFAULT_SETTINGS.podDiscovery) == PodDiscoveryAt(a.fields, DEFAULT_SETTINGS.podDiscovery)
  {
    assert !Selected(provider, "version") && !Selected(provider, "agent");
    assert provider != "storage" ==> !Selected(provider, "storage");
    assert provider != "tcp" ==> !Selected(provider, "pod_discovery");
  }

  lemma DecodeInside(provider: string, a: Json, b: Json)
    requires provider in PROVIDERS && SameOutside(provider, a, b)
    requires Decode(a).Ok? && Decode(b).Ok?
    ensures OnlySelected(provider, Decode(a).value, Decode(b).value)
  {
    var d := DEFAULT_SETTINGS;
    DecodeParts(a);
    DecodeParts(b);
    KeptOthers(provider, a, b);
    if provider != "memory" { KeptCollector(provider, a, b, "memory", d.memory); }
    if provider != "cpu" { KeptCollector(provider, a, b, "cpu", d.cpu); }
    if provider != "network" { KeptCollector(provider, a, b, "network", d.network); }
    if provider != "disk_io" { KeptCollector(provider, a, b, "disk_io", d.diskIo); }
    if provider != "tcp" { KeptCollector(provider, a, b, "tcp", d.tcp); }
  }

  /**
   The frame of `--set`: no section or key comes or goes, nothing outside the selected provider's
   section changes, and what a non-empty list produces is a valid config.
   */
  lemma OverridesStayInside(p: Parsers, config: RuntimeConfig, provider: string, overrides: seq<string>)
    requires Overridden(p, config, provider, overrides).Ok?
    ensures var after := Overridden(p, config, provider, overrides).value;
            OnlySelected(provider, config, after) && (overrides != [] ==> Valid(after))
    ensures ApplyAll(p, provider, Encode(config), overrides).Ok?
    ensures SameOutside(provider, Encode(config), ApplyAll(p, provider, Encode(config), overrides).value)
  {
    SectionsAreTables(config, provider);
    AllStayInside(p, provider, Encode(config), overrides);
    if overrides != [] {
      DecodeEncode(config);
      DecodeInside(provider, Encode(config), ApplyAll(p, provider, Encode(config), overrides).value);
    }
  }

  // ----------------------------------------------------- one setting at a time

  /** Where an assignment writes. */
  function Target(a: Assignment): seq<string> {
    [a.section] + a.fields
  }

  /** The node an assignment replaces. */
  function Node(value: Json, a: Assignment): Json
    requires Reaches(value, Target(a))
  {
    At(value, Target(a), "").value
  }

  /** A readable assignment whose target exists is one overwrite of that node. */
  lemma OneIsPut(p: Parsers, provider: string, value: Json, text: string)
    requires ReadAssignment(provider, text).Ok?
    ensures var a := ReadAssignment(provider, text).value;
            if Reaches(value, Target(a)) then
              var leaf := NewLeaf(p, a.key, Node(value, a), a.raw);
              ApplyOne(p, provider, value, text)
              == if leaf.Ok? then Ok(Put(value, Target(a), leaf.value)) else Err(leaf.error)
            else ApplyOne(p, provider, value, text).Err?
  {
    var a := ReadAssignment(provider, text).value;
    assert Target(a)[1..] == a.fields;
    if Reaches(value, Target(a)) {
      SameAt(value.fields[a.section], a.fields, a.key, "");
    }
  }

  lemma {:induction false} SameAt(j: Json, path: seq<string>, key: string, other: string)
    requires Reaches(j, path)
    ensures At(j, path, key) == At(j, path, other)
    decreases |path|
  {
    if path != [] {
      SameAt(j.fields[path[0]], path[1..], key, other);
    }
  }

  /** A position no assignment writes to, above or below, keeps its value. */
  lemma {:induction false} UnnamedSettingIsKept(p: Parsers, provider: string, value: Json, overrides: seq<string>, path: seq<string>)
    requires ApplyAll(p, provider, value, overrides).Ok?
    requires forall text :: text in overrides && ReadAssignment(provider, text).Ok? ==>
               Diverge(Target(ReadAssignment(provider, text).value), path)
    ensures At(ApplyAll(p, provider, value, overrides).value, path, "") == At(value, path, "")
    decreases |overrides|
  {
    if overrides != [] {
      var text := overrides[0];
      var a := ReadAssignment(provider, text).value;
      OneIsPut(p, provider, value, text);
      var leaf := NewLeaf(p, a.key, Node(value, a), a.raw).value;
      PutThenAt(value, Target(a), leaf, path, "");
      UnnamedSettingIsKept(p, provider, Put(value, Target(a), leaf), overrides[1..], path);
    }
  }

  /** What the JSON library promises: a literal is a string exactly when it starts with a quote. */
  ghost predicate Lawful(p: Parsers) {
    forall raw: string :: raw != "" ==>
      if raw[0] == '"' then p.literal(raw) == (if p.quoted(raw).Some? then Some(String(p.quoted(raw).value)) else None)
      else p.literal(raw).Some? ==> !p.literal(raw).value.String?
  }

  ghost predicate SameEffect<T(!new)>(a: Outcome<T>, b: Outcome<T>) {
    a.Ok? == b.Ok? && (a.Ok? ==> a.value == b.value)
  }

  lemma {:induction false} PutTwice(j: Json, path: seq<string>, x: Json, y: Json)
    requires Reaches(j, path)
    ensures Reaches(Put(j, path, x), path) && Put(Put(j, path, x), path, y) == Put(j, path, y)
    decreases |path|
  {
    if path != [] {
      PutTwice(j.fields[path[0]], path[1..], x, y);
    }
  }

  lemma TwoAssignments(p: Parsers, provider: string, value: Json, first: string, second: string)
    ensures ApplyAll(p, provider, value, [second]) == ApplyOne(p, provider, value, second)
    ensures ApplyOne(p, provider, value, first).Ok? ==>
              ApplyAll(p, provider, value, [first, second])
              == ApplyOne(p, provider, ApplyOne(p, provider, value, first).value, second)
  {
    assert [first, second][1..] == [second] && [second][1..] == [];
    var one := ApplyOne(p, provider, value, first);
    if one.Ok? {
      var two := ApplyOne(p, provider, one.value, second);
      assert ApplyAll(p, provider, one.value, [second])
          == if two.Ok? then ApplyAll(p, provider, two.value, []) else Err(two.error);
    }
  }

  lemma LeafTwice(p: Parsers, node: Json, key: string, first: string, other: string, second: string)
    requires Lawful(p) && first != "" && second != ""
    requires NewLeaf(p, key, node, first).Ok?
    ensures SameEffect(NewLeaf(p, other, NewLeaf(p, key, node, first).value, second), NewLeaf(p, other, node, second))
       <==> node.String? || first[0] != '"' || second[0] == '"'
  {
  }

  /**
   Setting a value twice is setting it to the last value, except that a setting that is no string, once
   given a quoted one, takes a bare second value as text instead of as a literal.
   */
  lemma RepeatedSetting(
    p: Parsers, provider: string, value: Json, first: string, second: string, a: Assignment, b: Assignment)
    requires Lawful(p)
    requires ReadAssignment(provider, first) == Ok(a) && ReadAssignment(provider, second) == Ok(b)
    requires Target(a) == Target(b) && Reaches(value, Target(a))
    requires ApplyOne(p, provider, value, first).Ok?
    ensures SameEffect(ApplyAll(p, provider, value, [first, second]), ApplyAll(p, provider, value, [second]))
       <==> Node(value, a).String? || a.raw[0] != '"' || b.raw[0] == '"'
  {
    var path, node := Target(a), Node(value, a);
    var x := NewLeaf(p, a.key, node, a.raw);
    OneIsPut(p, provider, value, first);
    OneIsPut(p, provider, value, second);
    var mid := Put(value, path, x.value);
    PutThenAt(value, path, x.value, [], "");
    OneIsPut(p, provider, mid, second);
    TwoAssignments(p, provider, value, first, second);
    LeafTwice(p, node, a.key, a.raw, b.key, b.raw);
    var y, z := NewLeaf(p, b.key, x.value, b.raw), NewLeaf(p, b.key, node, b.raw);
    if y.Ok? {
      PutTwice(value, path, x.value, y.value);
      PutThenAt(value, path, y.value, [], "");
    }
    if z.Ok? {
      PutThenAt(value, path, z.value, [], "");
    }
  }

  // ------------------------------------------------------------ text that sticks

  /** Settings whose type is not text. */
  predicate NotText(section: string, field: string) {
    || (section in PROVIDERS && (field == "enabled" || field == "interval_seconds"))
    || (section == "storage" && field == "mounts")
  }

  predicate HoldsText(value: Json, section: string, field: string) {
    Reaches(value, [section, field]) && At(value, [section, field], "").value.String?
  }

  lemma ReachesField(value: Json, section: string, field: string)
    ensures Reaches(value, [section, field]) <==>
            && value.Object? && section in value.fields
            && value.fields[section].Object? && field in value.fields[section].fields
    ensures Reaches(value, [section, field]) ==>
              At(value, [section, field], "") == Ok(value.fields[section].fields[field])
  {
    assert [section, field][1..] == [field] && [field][1..] == [];
    if value.Object? && section in value.fields {
      var t := value.fields[section];
      assert Reaches(t, [field]) <==> t.Object? && field in t.fields;
      assert t.Object? && field in t.fields ==> At(t, [field], "") == At(t.fields[field], [], "");
    }
  }

  /** Text where a flag, a number or a list belongs is refused by the typed reading. */
  lemma TextIsRefused(value: Json, section: string, field: string)
    requires HoldsText(value, section, field) && NotText(section, field)
    ensures Decode(value).Err?
  {
    ReachesField(value, section, field);
    if Decode(value).Ok? {
      DecodeParts(value);
    }
  }

  lemma OneKeepsText(p: Parsers, provider: string, value: Json, text: string, section: string, field: string)
    requires HoldsText(value, section, field) && ApplyOne(p, provider, value, text).Ok?
    ensures HoldsText(ApplyOne(p, provider, value, text).value, section, field)
  {
    var a := ReadAssignment(provider, text).value;
    var path, target := [section, field], Target(a);
    OneIsPut(p, provider, value, text);
    var leaf := NewLeaf(p, a.key, Node(value, a), a.raw).value;
    PutThenAt(value, target, leaf, path, "");
    if !Diverge(target, path) {
      TextHasNoFields(value, target, section, field);
    }
  }

  /** A path that does not part from a text node's path ends at that node. */
  lemma TextHasNoFields(value: Json, target: seq<string>, section: string, field: string)
    requires HoldsText(value, section, field)
    requires |target| >= 2 && Reaches(value, target) && !Diverge(target, [section, field])
    ensures target == [section, field]
  {
    ReachesField(value, section, field);
    assert [section, field][1..] == [field];
    assert target[0] == section && target[1..][0] == field;
    assert Reaches(value.fields[section].fields[field], target[1..][1..]);
    assert target == [section, field] + target[1..][1..];
  }

  lemma {:induction false} TextSticks(
    p: Parsers, provider: string, value: Json, overrides: seq<string>, section: string, field: string)
    requires HoldsText(value, section, field) && ApplyAll(p, provider, value, overrides).Ok?
    ensures HoldsText(ApplyAll(p, provider, value, overrides).value, section, field)
    decreases |overrides|
  {
    if overrides != [] {
      OneKeepsText(p, provider, value, overrides[0], section, field);
      TextSticks(p, provider, ApplyOne(p, provider, value, overrides[0]).value, overrides[1..], section, field);
    }
  }

  /** A quoted value for a setting that is no text fails the command, whatever assignments follow it. */
  lemma QuotedValueIsFatal(p: Parsers, config: RuntimeConfig, provider: string, first: string, rest: seq<string>, a: Assignment)
    requires Lawful(p) && ReadAssignment(provider, first) == Ok(a)
    requires |a.fields| == 1 && NotText(a.section, a.fields[0]) && a.raw[0] == '"'
    ensures Overridden(p, config, provider, [first] + rest).Err?
  {
    var value, overrides := Encode(config), [first] + rest;
    assert overrides[0] == first && overrides[1..] == rest;
    assert Target(a) == [a.section, a.fields[0]];
    OneIsPut(p, provider, value, first);
    if provider in PROVIDERS && ApplyAll(p, provider, value, overrides).Ok? {
      SettingIsNoText(config, a.section, a.fields[0]);
      var leaf := NewLeaf(p, a.key, Node(value, a), a.raw).value;
      PutThenAt(value, Target(a), leaf, [], "");
      TextSticks(p, provider, Put(value, Target(a), leaf), rest, a.section, a.fields[0]);
      TextIsRefused(ApplyAll(p, provider, value, overrides).value, a.section, a.fields[0]);
    }
  }

  lemma SettingIsNoText(config: RuntimeConfig, section: string, field: string)
    requires NotText(section, field)
    ensures !HoldsText(Encode(config), section, field)
  {
    DecodeEncode(config);
    if HoldsText(Encode(config), section, field) {
      TextIsRefused(Encode(config), section, field);
    }
  }
}
