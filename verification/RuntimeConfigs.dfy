/**
 Runtime configuration: validation, layering of overrides, effective versions,
 and the finite check a control file must pass before it is served.
 */
module RuntimeConfigs {
  import opened Common
  import Text
  import Fnv

  datatype ConfigError =
    | EmptyVersion
    | EmptyConfigPollInterval
    | EmptyHeartbeatInterval
    | EmptyStorageInterval
    | EmptyStorageMounts
    | RelativeStorageMount(mount: string)
    | EmptyMemoryInterval
    | EmptyCpuInterval
    | EmptyNetworkInterval
    | EmptyDiskIoInterval
    | EmptyPodDiscoveryCriSocket
    | EmptyTcpInterval

  type Checked = Result<(), ConfigError>

  datatype AgentSettings = AgentSettings(configPollIntervalSeconds: u64, heartbeatIntervalSeconds: u64)

  datatype StorageConfig = StorageConfig(enabled: bool, intervalSeconds: u64, mounts: seq<string>)

  /** Memory, CPU, network, disk I/O and TCP settings share this shape. */
  datatype CollectorConfig = CollectorConfig(enabled: bool, intervalSeconds: u64)

  datatype PodDiscoveryConfig = PodDiscoveryConfig(criSocket: string)

  /** Everything in a runtime config except its version. */
  datatype Settings = Settings(
    agent: AgentSettings,
    storage: StorageConfig,
    memory: CollectorConfig,
    cpu: CollectorConfig,
    network: CollectorConfig,
    diskIo: CollectorConfig,
    podDiscovery: PodDiscoveryConfig,
    tcp: CollectorConfig)

  datatype RuntimeConfig = RuntimeConfig(version: string, settings: Settings)

  const DEFAULT_SETTINGS: Settings := Settings(
      AgentSettings(900, 60),
      StorageConfig(true, 60, ["/"]),
      CollectorConfig(true, 60),
      CollectorConfig(false, 1),
      CollectorConfig(false, 1),
      CollectorConfig(false, 1),
      PodDiscoveryConfig("all"),
      CollectorConfig(false, 15))

  // -------------------------------------------------------------- validation

  /** What a deployable configuration must satisfy. */
  predicate ValidSettings(s: Settings) {
    && s.agent.configPollIntervalSeconds > 0
    && s.agent.heartbeatIntervalSeconds > 0
    && s.storage.intervalSeconds > 0
    && (s.storage.enabled ==> s.storage.mounts != [])
    && (forall m :: m in s.storage.mounts ==> Absolute(m))
    && s.memory.intervalSeconds > 0
    && s.cpu.intervalSeconds > 0
    && s.network.intervalSeconds > 0
    && s.diskIo.intervalSeconds > 0
    && !Text.Blank(s.podDiscovery.criSocket)
    && s.tcp.intervalSeconds > 0
  }

  predicate Valid(c: RuntimeConfig) {
    !Text.Blank(c.version) && ValidSettings(c.settings)
  }

  predicate Absolute(path: string) {
    |path| > 0 && path[0] == '/'
  }

  function Require(condition: bool, error: ConfigError): Checked {
    if condition then Ok(()) else Err(error)
  }

  function ValidateMounts(mounts: seq<string>): (r: Checked)
    ensures r.Ok? <==> forall m :: m in mounts ==> Absolute(m)
    ensures r.Err? ==> exists i :: 0 <= i < |mounts| && r.error == RelativeStorageMount(mounts[i])
                                 && !Absolute(mounts[i]) && forall j :: 0 <= j < i ==> Absolute(mounts[j])
  {
    if mounts == [] then Ok(())
    else if !Absolute(mounts[0]) then Err(RelativeStorageMount(mounts[0]))
    else
      assert forall m :: m in mounts <==> m == mounts[0] || m in mounts[1..];
      assert forall i :: 0 < i < |mounts| ==> mounts[i] == mounts[1..][i - 1];
      ValidateMounts(mounts[1..])
  }

  function ValidateStorage(s: StorageConfig): Checked {
    var _ :- Require(s.intervalSeconds != 0, EmptyStorageInterval);
    var _ :- Require(!(s.enabled && s.mounts == []), EmptyStorageMounts);
    ValidateMounts(s.mounts)
  }

  /** What each error says about the config. */
  predicate Breaks(c: RuntimeConfig, error: ConfigError) {
    var s := c.settings;
    match error
    case EmptyVersion => Text.Blank(c.version)
    case EmptyConfigPollInterval => s.agent.configPollIntervalSeconds == 0
    case EmptyHeartbeatInterval => s.agent.heartbeatIntervalSeconds == 0
    case EmptyStorageInterval => s.storage.intervalSeconds == 0
    case EmptyStorageMounts => s.storage.enabled && s.storage.mounts == []
    case RelativeStorageMount(mount) => mount in s.storage.mounts && !Absolute(mount)
    case EmptyMemoryInterval => s.memory.intervalSeconds == 0
    case EmptyCpuInterval => s.cpu.intervalSeconds == 0
    case EmptyNetworkInterval => s.network.intervalSeconds == 0
    case EmptyDiskIoInterval => s.diskIo.intervalSeconds == 0
    case EmptyPodDiscoveryCriSocket => Text.Blank(s.podDiscovery.criSocket)
    case EmptyTcpInterval => s.tcp.intervalSeconds == 0
  }

  function Rank(error: ConfigError): nat {
    match error
    case EmptyVersion => 0
    case EmptyConfigPollInterval => 1
    case EmptyHeartbeatInterval => 2
    case EmptyStorageInterval => 3
    case EmptyStorageMounts => 4
    case RelativeStorageMount(_) => 5
    case EmptyMemoryInterval => 6
    case EmptyCpuInterval => 7
    case EmptyNetworkInterval => 8
    case EmptyDiskIoInterval => 9
    case EmptyPodDiscoveryCriSocket => 10
    case EmptyTcpInterval => 11
  }

  /** The checks in source order; the first that fails names the error. */
  function Validate(c: RuntimeConfig): (r: Checked)
    ensures r.Ok? <==> Valid(c)
    ensures r.Err? ==> Breaks(c, r.error) && forall e :: Breaks(c, e) ==> Rank(r.error) <= Rank(e)
  {
    var s := c.settings;
    var _ :- Require(!Text.Blank(c.version), EmptyVersion);
    var _ :- Require(s.agent.configPollIntervalSeconds != 0, EmptyConfigPollInterval);
    var _ :- Require(s.agent.heartbeatIntervalSeconds != 0, EmptyHeartbeatInterval);
    var _ :- ValidateStorage(s.storage);
    var _ :- Require(s.memory.intervalSeconds != 0, EmptyMemoryInterval);
    var _ :- Require(s.cpu.intervalSeconds != 0, EmptyCpuInterval);
    var _ :- Require(s.network.intervalSeconds != 0, EmptyNetworkInterval);
    var _ :- Require(s.diskIo.intervalSeconds != 0, EmptyDiskIoInterval);
    var _ :- Require(!Text.Blank(s.podDiscovery.criSocket), EmptyPodDiscoveryCriSocket);
    Require(s.tcp.intervalSeconds != 0, EmptyTcpInterval)
  }

  /** The storage check with the source's loop over the mount list. */
  method CheckStorage(s: StorageConfig) returns (r: Checked)
    ensures r == ValidateStorage(s)
  {
    if s.intervalSeconds == 0 {
      return Err(EmptyStorageInterval);
    }
    if s.enabled && s.mounts == [] {
      return Err(EmptyStorageMounts);
    }
    for i := 0 to |s.mounts|
      invariant ValidateMounts(s.mounts[i..]) == ValidateMounts(s.mounts)
    {
      if !Absolute(s.mounts[i]) {
        return Err(RelativeStorageMount(s.mounts[i]));
      }
      assert s.mounts[i..][1..] == s.mounts[i + 1..];
    }
    return Ok(());
  }

  // ---------------------------------------------------------------- layering

  datatype AgentOverride = AgentOverride(configPollIntervalSeconds: Option<u64>, heartbeatIntervalSeconds: Option<u64>)

  datatype StorageOverride = StorageOverride(enabled: Option<bool>, intervalSeconds: Option<u64>, mounts: Option<seq<string>>)

  datatype CollectorOverride = CollectorOverride(enabled: Option<bool>, intervalSeconds: Option<u64>)

  datatype PodDiscoveryOverride = PodDiscoveryOverride(criSocket: Option<string>)

  datatype HostOverride = HostOverride(
    agent: AgentOverride,
    storage: StorageOverride,
    memory: CollectorOverride,
    cpu: CollectorOverride,
    network: CollectorOverride,
    diskIo: CollectorOverride,
    podDiscovery: PodDiscoveryOverride,
    tcp: CollectorOverride)

  const NO_COLLECTOR_OVERRIDE := CollectorOverride(None, None)

  const NO_OVERRIDE: HostOverride := HostOverride(
      AgentOverride(None, None),
      StorageOverride(None, None, None),
      NO_COLLECTOR_OVERRIDE, NO_COLLECTOR_OVERRIDE, NO_COLLECTOR_OVERRIDE, NO_COLLECTOR_OVERRIDE,
      PodDiscoveryOverride(None),
      NO_COLLECTOR_OVERRIDE)

  function Pick<T>(o: Option<T>, current: T): T {
    if o.Some? then o.value else current
  }

  function ApplyCollector(o: CollectorOverride, c: CollectorConfig): CollectorConfig {
    CollectorConfig(Pick(o.enabled, c.enabled), Pick(o.intervalSeconds, c.intervalSeconds))
  }

  /** The settings after an override block was applied on top of them. */
  function Apply(o: HostOverride, s: Settings): Settings {
    Settings(
      AgentSettings(
        Pick(o.agent.configPollIntervalSeconds, s.agent.configPollIntervalSeconds),
        Pick(o.agent.heartbeatIntervalSeconds, s.agent.heartbeatIntervalSeconds)),
      StorageConfig(
        Pick(o.storage.enabled, s.storage.enabled),
        Pick(o.storage.intervalSeconds, s.storage.intervalSeconds),
        Pick(o.storage.mounts, s.storage.mounts)),
      ApplyCollector(o.memory, s.memory),
      ApplyCollector(o.cpu, s.cpu),
      ApplyCollector(o.network, s.network),
      ApplyCollector(o.diskIo, s.diskIo),
      PodDiscoveryConfig(Pick(o.podDiscovery.criSocket, s.podDiscovery.criSocket)),
      ApplyCollector(o.tcp, s.tcp))
  }

  /** A field after a block was applied: the block's value if it gives one, and otherwise what was there. */
  predicate Overwrites<T(==)>(after: T, given: Option<T>, before: T) {
    after == match given case Some(value) => value case None => before
  }

  predicate AgentOverwritten(after: AgentSettings, o: AgentOverride, before: AgentSettings) {
    && Overwrites(after.configPollIntervalSeconds, o.configPollIntervalSeconds, before.configPollIntervalSeconds)
    && Overwrites(after.heartbeatIntervalSeconds, o.heartbeatIntervalSeconds, before.heartbeatIntervalSeconds)
  }

  predicate StorageOverwritten(after: StorageConfig, o: StorageOverride, before: StorageConfig) {
    && Overwrites(after.enabled, o.enabled, before.enabled)
    && Overwrites(after.intervalSeconds, o.intervalSeconds, before.intervalSeconds)
    && Overwrites(after.mounts, o.mounts, before.mounts)
  }

  predicate CollectorOverwritten(after: CollectorConfig, o: CollectorOverride, before: CollectorConfig) {
    && Overwrites(after.enabled, o.enabled, before.enabled)
    && Overwrites(after.intervalSeconds, o.intervalSeconds, before.intervalSeconds)
  }

  /** The same for each field of each of the eight sections. */
  predicate Overwritten(after: Settings, o: HostOverride, before: Settings) {
    && AgentOverwritten(after.agent, o.agent, before.agent)
    && StorageOverwritten(after.storage, o.storage, before.storage)
    && CollectorOverwritten(after.memory, o.memory, before.memory)
    && CollectorOverwritten(after.cpu, o.cpu, before.cpu)
    && CollectorOverwritten(after.network, o.network, before.network)
    && CollectorOverwritten(after.diskIo, o.diskIo, before.diskIo)
    && Overwrites(after.podDiscovery.criSocket, o.podDiscovery.criSocket, before.podDiscovery.criSocket)
    && CollectorOverwritten(after.tcp, o.tcp, before.tcp)
  }

  lemma AgentApplied(o: AgentOverride, a: AgentSettings)
    ensures AgentOverwritten(
              AgentSettings(Pick(o.configPollIntervalSeconds, a.configPollIntervalSeconds),
                            Pick(o.heartbeatIntervalSeconds, a.heartbeatIntervalSeconds)), o, a)
  {
  }

  lemma StorageApplied(o: StorageOverride, s: StorageConfig)
    ensures StorageOverwritten(
              StorageConfig(Pick(o.enabled, s.enabled), Pick(o.intervalSeconds, s.intervalSeconds), Pick(o.mounts, s.mounts)), o, s)
  {
  }

  lemma CollectorApplied(o: CollectorOverride, c: CollectorConfig)
    ensures CollectorOverwritten(ApplyCollector(o, c), o, c)
  {
  }

  lemma BlockApplied(o: HostOverride, s: Settings)
    ensures Overwritten(Apply(o, s), o, s)
  {
    AgentApplied(o.agent, s.agent);
    StorageApplied(o.storage, s.storage);
    CollectorApplied(o.memory, s.memory);
    CollectorApplied(o.cpu, s.cpu);
    CollectorApplied(o.network, s.network);
    CollectorApplied(o.diskIo, s.diskIo);
    CollectorApplied(o.tcp, s.tcp);
  }

  function Prefer<T>(winner: Option<T>, other: Option<T>): Option<T> {
    if winner.Some? then winner else other
  }

  function MergeCollector(base: CollectorOverride, host: CollectorOverride): CollectorOverride {
    CollectorOverride(Prefer(host.enabled, base.enabled), Prefer(host.intervalSeconds, base.intervalSeconds))
  }

  /** One override block in which the host's fields win over the defaults' fields. */
  function Merge(base: HostOverride, host: HostOverride): HostOverride {
    HostOverride(
      AgentOverride(
        Prefer(host.agent.configPollIntervalSeconds, base.agent.configPollIntervalSeconds),
        Prefer(host.agent.heartbeatIntervalSeconds, base.agent.heartbeatIntervalSeconds)),
      StorageOverride(
        Prefer(host.storage.enabled, base.storage.enabled),
        Prefer(host.storage.intervalSeconds, base.storage.intervalSeconds),
        Prefer(host.storage.mounts, base.storage.mounts)),
      MergeCollector(base.memory, host.memory),
      MergeCollector(base.cpu, host.cpu),
      MergeCollector(base.network, host.network),
      MergeCollector(base.diskIo, host.diskIo),
      PodDiscoveryOverride(Prefer(host.podDiscovery.criSocket, base.podDiscovery.criSocket)),
      MergeCollector(base.tcp, host.tcp))
  }

  lemma CollectorLayers(base: CollectorOverride, host: CollectorOverride, c: CollectorConfig)
    ensures ApplyCollector(host, ApplyCollector(base, c)) == ApplyCollector(MergeCollector(base, host), c)
  {
  }

  /** Layering two blocks is applying one merged block in which the later fields win. */
  lemma LayeringIsMerging(base: HostOverride, host: HostOverride, s: Settings)
    ensures Apply(host, Apply(base, s)) == Apply(Merge(base, host), s)
  {
    CollectorLayers(base.memory, host.memory, s.memory);
    CollectorLayers(base.cpu, host.cpu, s.cpu);
    CollectorLayers(base.network, host.network, s.network);
    CollectorLayers(base.diskIo, host.diskIo, s.diskIo);
    CollectorLayers(base.tcp, host.tcp, s.tcp);
  }

  /** The empty block is a unit of merging, and a block merged with itself is itself. */
  lemma MergeUnits(o: HostOverride)
    ensures Merge(NO_OVERRIDE, o) == o == Merge(o, NO_OVERRIDE) == Merge(o, o)
  {
  }

  /** A block applied twice is applied once. */
  lemma ApplyTwice(o: HostOverride, s: Settings)
    ensures Apply(o, Apply(o, s)) == Apply(o, s)
  {
    LayeringIsMerging(o, o, s);
    MergeUnits(o);
  }

  /** The runtime config under construction, whose sections `apply_to` overwrites in place. */
  class Draft {
    var agent: AgentSettings
    var storage: StorageConfig
    var memory: CollectorConfig
    var cpu: CollectorConfig
    var network: CollectorConfig
    var diskIo: CollectorConfig
    var podDiscovery: PodDiscoveryConfig
    var tcp: CollectorConfig

    function View(): Settings
      reads this
    {
      Settings(agent, storage, memory, cpu, network, diskIo, podDiscovery, tcp)
    }

    constructor ()
      ensures View() == DEFAULT_SETTINGS
    {
      var s := DEFAULT_SETTINGS;
      agent, storage, memory, cpu := s.agent, s.storage, s.memory, s.cpu;
      network, diskIo, podDiscovery, tcp := s.network, s.diskIo, s.podDiscovery, s.tcp;
    }

    method ApplyAgent(o: AgentOverride)
      modifies this`agent
      ensures Overwrites(agent.configPollIntervalSeconds, o.configPollIntervalSeconds, old(agent.configPollIntervalSeconds))
      ensures Overwrites(agent.heartbeatIntervalSeconds, o.heartbeatIntervalSeconds, old(agent.heartbeatIntervalSeconds))
    {
      if o.configPollIntervalSeconds.Some? {
        agent := agent.(configPollIntervalSeconds := o.configPollIntervalSeconds.value);
      }
      if o.heartbeatIntervalSeconds.Some? {
        agent := agent.(heartbeatIntervalSeconds := o.heartbeatIntervalSeconds.value);
      }
    }

    method ApplyStorage(o: StorageOverride)
      modifies this`storage
      ensures Overwrites(storage.enabled, o.enabled, old(storage.enabled))
      ensures Overwrites(storage.intervalSeconds, o.intervalSeconds, old(storage.intervalSeconds))
      ensures Overwrites(storage.mounts, o.mounts, old(storage.mounts))
    {
      if o.enabled.Some? {
        storage := storage.(enabled := o.enabled.value);
      }
      if o.intervalSeconds.Some? {
        storage := storage.(intervalSeconds := o.intervalSeconds.value);
      }
      if o.mounts.Some? {
        storage := storage.(mounts := o.mounts.value);
      }
    }

    /** `apply_to` of a whole block: section by section, each overwritten in place. */
    method ApplyOverride(o: HostOverride)
      modifies this
      ensures View() == Apply(o, old(View()))
      ensures Overwritten(View(), o, old(View()))
    {
      BlockApplied(o, View());
      ApplyAgent(o.agent);
      ApplyStorage(o.storage);
      memory := ApplyCollector(o.memory, memory);
      cpu := ApplyCollector(o.cpu, cpu);
      network := ApplyCollector(o.network, network);
      diskIo := ApplyCollector(o.diskIo, diskIo);
      if o.podDiscovery.criSocket.Some? {
        podDiscovery := podDiscovery.(criSocket := o.podDiscovery.criSocket.value);
      }
      tcp := ApplyCollector(o.tcp, tcp);
    }
  }

  // ------------------------------------------------------------ control files

  datatype Enrollment = Enrollment(hostname: string, configToken: Option<string>)

  datatype ControlFile = ControlFile(
    defaults: HostOverride,
    hosts: map<string, HostOverride>,
    agents: map<string, Enrollment>)

  /**
   Library functions from text to bytes: UTF-8 for names, JSON for a config whose version is
   blanked, SHA-256 for secrets.
   */
  datatype Encoding = Encoding(
    utf8: string -> Fnv.Bytes,
    json: Settings -> Fnv.Bytes,
    digest: string -> Fnv.Bytes)

  /** `effective_config_version`. */
  function EffectiveVersion(enc: Encoding, hostname: string, s: Settings): string {
    "cfg-" + Fnv.Hex16(Fnv.Hash(enc.utf8(hostname) + enc.json(s)))
  }

  /** The settings a hostname resolves to, before validation. */
  function Resolve(file: ControlFile, hostname: string): Settings {
    var base := Apply(file.defaults, DEFAULT_SETTINGS);
    if hostname in file.hosts then Apply(file.hosts[hostname], base) else base
  }

  function RuntimeConfigFor(enc: Encoding, file: ControlFile, hostname: string): (r: Result<RuntimeConfig, ConfigError>)
    ensures r.Ok? <==> ValidSettings(Resolve(file, hostname))
    ensures r.Ok? ==> r.value.settings == Resolve(file, hostname) && Valid(r.value)
  {
    var settings := Resolve(file, hostname);
    var runtime := RuntimeConfig(EffectiveVersion(enc, hostname, settings), settings);
    assert !Text.Blank(runtime.version) by {
      assert runtime.version[0] == 'c';
    }
    var _ :- Validate(runtime);
    Ok(runtime)
  }

  /** `runtime_config_for` in the source's form: default, overwrite, overwrite, validate. */
  method BuildRuntimeConfig(enc: Encoding, file: ControlFile, hostname: string)
    returns (r: Result<RuntimeConfig, ConfigError>)
    ensures r == RuntimeConfigFor(enc, file, hostname)
  {
    var draft := new Draft();
    draft.ApplyOverride(file.defaults);
    if hostname in file.hosts {
      draft.ApplyOverride(file.hosts[hostname]);
    }
    var runtime := RuntimeConfig(EffectiveVersion(enc, hostname, draft.View()), draft.View());
    var checked := Validate(runtime);
    if checked.Err? {
      return Err(checked.error);
    }
    return Ok(runtime);
  }

  /** Where a served value comes from: the host's block, else the defaults, else the built-in value. */
  predicate Layered<T(==)>(value: T, host: Option<T>, base: Option<T>, builtin: T) {
    match (host, base)
    case (Some(v), _) => value == v
    case (None, Some(v)) => value == v
    case (None, None) => value == builtin
  }

  predicate AgentLayered(a: AgentSettings, host: AgentOverride, base: AgentOverride) {
    && Layered(a.configPollIntervalSeconds, host.configPollIntervalSeconds, base.configPollIntervalSeconds, 900)
    && Layered(a.heartbeatIntervalSeconds, host.heartbeatIntervalSeconds, base.heartbeatIntervalSeconds, 60)
  }

  predicate StorageLayered(s: StorageConfig, host: StorageOverride, base: StorageOverride) {
    && Layered(s.enabled, host.enabled, base.enabled, true)
    && Layered(s.intervalSeconds, host.intervalSeconds, base.intervalSeconds, 60)
    && Layered(s.mounts, host.mounts, base.mounts, ["/"])
  }

  predicate CollectorLayered(c: CollectorConfig, host: CollectorOverride, base: CollectorOverride, enabled: bool, seconds: u64) {
    && Layered(c.enabled, host.enabled, base.enabled, enabled)
    && Layered(c.intervalSeconds, host.intervalSeconds, base.intervalSeconds, seconds)
  }

  /** Every setting there is, with its built-in value. */
  predicate EveryFieldLayered(s: Settings, host: HostOverride, base: HostOverride) {
    && AgentLayered(s.agent, host.agent, base.agent)
    && StorageLayered(s.storage, host.storage, base.storage)
    && CollectorLayered(s.memory, host.memory, base.memory, true, 60)
    && CollectorLayered(s.cpu, host.cpu, base.cpu, false, 1)
    && CollectorLayered(s.network, host.network, base.network, false, 1)
    && CollectorLayered(s.diskIo, host.diskIo, base.diskIo, false, 1)
    && Layered(s.podDiscovery.criSocket, host.podDiscovery.criSocket, base.podDiscovery.criSocket, "all")
    && CollectorLayered(s.tcp, host.tcp, base.tcp, false, 15)
  }

  lemma AgentTwice(after: AgentSettings, host: AgentOverride, mid: AgentSettings, base: AgentOverride)
    requires AgentOverwritten(after, host, mid) && AgentOverwritten(mid, base, AgentSettings(900, 60))
    ensures AgentLayered(after, host, base)
  {
  }

  lemma StorageTwice(after: StorageConfig, host: StorageOverride, mid: StorageConfig, base: StorageOverride)
    requires StorageOverwritten(after, host, mid) && StorageOverwritten(mid, base, StorageConfig(true, 60, ["/"]))
    ensures StorageLayered(after, host, base)
  {
  }

  lemma CollectorTwice(
    after: CollectorConfig, host: CollectorOverride, mid: CollectorConfig, base: CollectorOverride, builtin: CollectorConfig)
    requires CollectorOverwritten(after, host, mid) && CollectorOverwritten(mid, base, builtin)
    ensures CollectorLayered(after, host, base, builtin.enabled, builtin.intervalSeconds)
  {
  }

  lemma BlocksLayered(host: HostOverride, base: HostOverride)
    ensures EveryFieldLayered(Apply(host, Apply(base, DEFAULT_SETTINGS)), host, base)
  {
    var d := DEFAULT_SETTINGS;
    var mid := Apply(base, d);
    var after := Apply(host, mid);
    BlockApplied(base, d);
    BlockApplied(host, mid);
    AgentTwice(after.agent, host.agent, mid.agent, base.agent);
    StorageTwice(after.storage, host.storage, mid.storage, base.storage);
    CollectorTwice(after.memory, host.memory, mid.memory, base.memory, d.memory);
    CollectorTwice(after.cpu, host.cpu, mid.cpu, base.cpu, d.cpu);
    CollectorTwice(after.network, host.network, mid.network, base.network, d.network);
    CollectorTwice(after.diskIo, host.diskIo, mid.diskIo, base.diskIo, d.diskIo);
    CollectorTwice(after.tcp, host.tcp, mid.tcp, base.tcp, d.tcp);
  }

  lemma NoBlockChangesNothing(s: Settings)
    ensures Apply(NO_OVERRIDE, s) == s
  {
  }

  /** Each setting a hostname is served comes from its own block, else from the defaults, else is built in. */
  lemma ServedFieldByField(enc: Encoding, file: ControlFile, hostname: string)
    ensures var host := if hostname in file.hosts then file.hosts[hostname] else NO_OVERRIDE;
            && EveryFieldLayered(Resolve(file, hostname), host, file.defaults)
            && (RuntimeConfigFor(enc, file, hostname).Ok? ==>
                  EveryFieldLayered(RuntimeConfigFor(enc, file, hostname).value.settings, host, file.defaults))
  {
    var host := if hostname in file.hosts then file.hosts[hostname] else NO_OVERRIDE;
    NoBlockChangesNothing(Apply(file.defaults, DEFAULT_SETTINGS));
    BlocksLayered(host, file.defaults);
  }

  /** A served version is the hash of the hostname and the served settings, in sixteen hex digits. */
  lemma ServedVersion(enc: Encoding, file: ControlFile, hostname: string)
    requires RuntimeConfigFor(enc, file, hostname).Ok?
    ensures var runtime := RuntimeConfigFor(enc, file, hostname).value;
            runtime.version == "cfg-" + Fnv.Hex16(Fnv.Hash(enc.utf8(hostname) + enc.json(runtime.settings)))
  {
  }

  lemma VersionsEqualIffHashesEqual(enc: Encoding, host: string, s: Settings, other: string, t: Settings)
    ensures EffectiveVersion(enc, host, s) == EffectiveVersion(enc, other, t)
       <==> Fnv.Hash(enc.utf8(host) + enc.json(s)) == Fnv.Hash(enc.utf8(other) + enc.json(t))
  {
    var x, y := EffectiveVersion(enc, host, s), EffectiveVersion(enc, other, t);
    if x == y {
      assert x[4..] == Fnv.Hex16(Fnv.Hash(enc.utf8(host) + enc.json(s)));
      assert y[4..] == Fnv.Hex16(Fnv.Hash(enc.utf8(other) + enc.json(t)));
      Fnv.Hex16Injective(Fnv.Hash(enc.utf8(host) + enc.json(s)), Fnv.Hash(enc.utf8(other) + enc.json(t)));
    }
  }

  /** Settings whose JSON differs in a single byte are never served to a hostname under the same version. */
  lemma OneByteEditChangesVersion(enc: Encoding, hostname: string, s: Settings, t: Settings, i: nat)
    requires Fnv.DifferOnlyAt(enc.json(s), enc.json(t), i)
    ensures EffectiveVersion(enc, hostname, s) != EffectiveVersion(enc, hostname, t)
  {
    var head := enc.utf8(hostname);
    VersionsEqualIffHashesEqual(enc, hostname, s, hostname, t);
    Fnv.OneByteChangesHash(head + enc.json(s), head + enc.json(t), |head| + i);
  }

  /** A hostname is served the defaults merged with its own block, over the built-in settings. */
  lemma ResolveIsOneMergedBlock(file: ControlFile, hostname: string)
    ensures Resolve(file, hostname)
         == Apply(Merge(file.defaults, if hostname in file.hosts then file.hosts[hostname] else NO_OVERRIDE),
                  DEFAULT_SETTINGS)
  {
    var own := if hostname in file.hosts then file.hosts[hostname] else NO_OVERRIDE;
    LayeringIsMerging(file.defaults, own, DEFAULT_SETTINGS);
    MergeUnits(file.defaults);
  }

  /**
   A hostname's response, version included, is a function of the hostname and the settings it resolves to:
   editing other hosts' blocks or any enrolment leaves it alone.
   */
  lemma EditsElsewhereKeepResponse(enc: Encoding, file: ControlFile, edited: ControlFile, hostname: string)
    requires edited.defaults == file.defaults
    requires hostname in edited.hosts <==> hostname in file.hosts
    requires hostname in file.hosts ==> edited.hosts[hostname] == file.hosts[hostname]
    ensures RuntimeConfigFor(enc, edited, hostname) == RuntimeConfigFor(enc, file, hostname)
  {
  }

  // ---------------------------------------------------------- the finite check

  /** What `validate_runtime_configs` looks at: the empty hostname and every named host. */
  predicate PassesValidation(file: ControlFile) {
    && ValidSettings(Resolve(file, ""))
    && forall h :: h in file.hosts ==> ValidSettings(Resolve(file, h))
  }

  method CheckHost(enc: Encoding, file: ControlFile, hostname: string) returns (r: Checked)
    ensures r.Ok? <==> ValidSettings(Resolve(file, hostname))
    ensures r.Err? ==> RuntimeConfigFor(enc, file, hostname) == Err(r.error)
  {
    var config := BuildRuntimeConfig(enc, file, hostname);
    return if config.Ok? then Ok(()) else Err(config.error);
  }

  method ValidateRuntimeConfigs(enc: Encoding, file: ControlFile) returns (r: Checked)
    ensures r.Ok? <==> PassesValidation(file)
    ensures r.Err? ==> exists h :: (h == "" || h in file.hosts) && RuntimeConfigFor(enc, file, h) == Err(r.error)
  {
    var first := CheckHost(enc, file, "");
    if first.Err? {
      return first;
    }
    var todo := file.hosts.Keys;
    while todo != {}
      invariant todo <= file.hosts.Keys
      invariant forall h :: h in file.hosts && h !in todo ==> ValidSettings(Resolve(file, h))
    {
      var hostname :| hostname in todo;
      var next := CheckHost(enc, file, hostname);
      if next.Err? {
        return next;
      }
      todo := todo - {hostname};
    }
    return Ok(());
  }

  ghost predicate ServesEveryHost(enc: Encoding, file: ControlFile) {
    forall hostname: string :: RuntimeConfigFor(enc, file, hostname).Ok?
  }

  /**
   A passing file serves every hostname exactly when no block for the empty hostname hides the
   defaults-only settings from the check, or those settings are valid anyway.
   */
  lemma FiniteCheckCoversEveryHost(enc: Encoding, file: ControlFile)
    requires PassesValidation(file)
    ensures ServesEveryHost(enc, file)
       <==> "" !in file.hosts || ValidSettings(Apply(file.defaults, DEFAULT_SETTINGS))
  {
    if ServesEveryHost(enc, file) {
      var unnamed := UnnamedHost(file.hosts.Keys);
      assert RuntimeConfigFor(enc, file, unnamed).Ok?;
    }
  }

  /** Some hostname has no override block, because only finitely many do. */
  lemma {:induction false} UnnamedHost(named: set<string>) returns (hostname: string)
    ensures hostname !in named
    ensures forall h :: h in named ==> |h| < |hostname|
  {
    if named == {} {
      hostname := "";
    } else {
      var h :| h in named;
      var shorter := UnnamedHost(named - {h});
      hostname := h + shorter + "x";
    }
  }

  lemma DefaultsAreValid()
    ensures ValidSettings(DEFAULT_SETTINGS)
  {
    assert !Text.Blank("all") by {
      assert "all"[0] == 'a';
    }
  }

  lemma ZeroMemoryIntervalIsRefused(c: RuntimeConfig)
    requires !Text.Blank(c.version) && c.settings == DEFAULT_SETTINGS.(memory := CollectorConfig(true, 0))
    ensures Validate(c) == Err(EmptyMemoryInterval)
  {
    assert ValidateStorage(DEFAULT_SETTINGS.storage).Ok?;
  }

  lemma VersionIsNotBlank(enc: Encoding, hostname: string, s: Settings)
    ensures !Text.Blank(EffectiveVersion(enc, hostname, s))
  {
    assert EffectiveVersion(enc, hostname, s)[0] == 'c';
  }

  /** The hypothesis is needed: a block for the empty hostname can hide broken defaults. */
  lemma EmptyHostBlockCanHideBrokenDefaults(enc: Encoding) returns (file: ControlFile)
    ensures PassesValidation(file)
    ensures "" in file.hosts
    ensures RuntimeConfigFor(enc, file, "web-1") == Err(EmptyMemoryInterval)
  {
    var broken := NO_OVERRIDE.(memory := CollectorOverride(None, Some(0)));
    var repaired := NO_OVERRIDE.(memory := CollectorOverride(None, Some(60)));
    file := ControlFile(broken, map["" := repaired], map[]);
    var unnamed := Resolve(file, "web-1");
    assert Resolve(file, "") == DEFAULT_SETTINGS;
    assert unnamed == DEFAULT_SETTINGS.(memory := CollectorConfig(true, 0));
    DefaultsAreValid();
    VersionIsNotBlank(enc, "web-1", unnamed);
    ZeroMemoryIntervalIsRefused(RuntimeConfig(EffectiveVersion(enc, "web-1", unnamed), unnamed));
  }
}
