/**
 What `--set` does to a setting, in the settings' own terms: how an assignment is spelled, which value it gives,
 and what the command returns.
 */
module ProviderSettings {
  import opened Common
  import opened RuntimeConfigs
  import opened ProviderOverrides
  import Text

  // ------------------------------------------------------------------ spelling

  /** A name in a dotted path. */
  predicate Name(w: string) {
    Text.Word(w) && '.' !in w && '=' !in w
  }

  lemma {:induction false} GluedNames(names: seq<string>)
    requires names != [] && forall i :: 0 <= i < |names| ==> Name(names[i])
    ensures Text.Trimmed(Text.Glue(names, ".")) && '=' !in Text.Glue(names, ".")
  {
    if |names| > 1 {
      GluedNames(names[1..]);
    }
  }

  function Spelled(pads: seq<string>, key: string, raw: string): string
    requires |pads| == 4
  {
    (pads[0] + key + pads[1]) + "=" + (pads[2] + raw + pads[3])
  }

  lemma SpelledSplits(pads: seq<string>, key: string, raw: string)
    requires |pads| == 4 && forall i :: 0 <= i < 4 ==> Text.Blank(pads[i])
    requires Text.Trimmed(key) && '=' !in key && Text.Trimmed(raw)
    ensures var (left, right) := (pads[0] + key + pads[1], pads[2] + raw + pads[3]);
            && Text.SplitOnce(Spelled(pads, key, raw), "=") == Some((left, right))
            && Text.Trim(left) == key && Text.Trim(right) == raw
  {
    var left := pads[0] + key + pads[1];
    assert '=' !in left by {
      assert forall i :: 0 <= i < |pads[0]| ==> Text.IsWhitespace(pads[0][i]);
      assert forall i :: 0 <= i < |pads[1]| ==> Text.IsWhitespace(pads[1][i]);
    }
    Text.SplitOnceAt(left, '=', pads[2] + raw + pads[3]);
    Text.TrimPadded(pads[0], key, pads[1]);
    Text.TrimPadded(pads[2], raw, pads[3]);
  }

  /** The section and the fields that dotted names stand for. */
  function PathOf(provider: string, names: seq<string>): (string, seq<string>)
    requires names != []
  {
    if Selected(provider, names[0]) then (names[0], names[1..]) else (provider, names)
  }

  lemma ReadFrom(provider: string, text: string, left: string, right: string, key: string, raw: string, names: seq<string>)
    requires Text.SplitOnce(text, "=") == Some((left, right)) && Text.Trim(left) == key && Text.Trim(right) == raw
    requires key != "" && raw != "" && Text.Split(key, '.') == names && names != [] && "" !in names
    requires PathOf(provider, names).1 != []
    ensures ReadAssignment(provider, text) == Ok(Assignment(key, PathOf(provider, names).0, PathOf(provider, names).1, raw))
  {
  }

  lemma NamesRead(provider: string, names: seq<string>, key: string, raw: string, pads: seq<string>)
    requires names != [] && forall i :: 0 <= i < |names| ==> Name(names[i])
    requires key == Text.Glue(names, ".") && PathOf(provider, names).1 != []
    requires Text.Trimmed(raw) && |pads| == 4 && forall i :: 0 <= i < 4 ==> Text.Blank(pads[i])
    ensures ReadAssignment(provider, Spelled(pads, key, raw))
         == Ok(Assignment(key, PathOf(provider, names).0, PathOf(provider, names).1, raw))
  {
    GluedNames(names);
    SpelledSplits(pads, key, raw);
    Text.GlueSplitsBack(names, '.');
    ReadFrom(provider, Spelled(pads, key, raw), pads[0] + key + pads[1], pads[2] + raw + pads[3], key, raw, names);
  }

  /**
   An assignment is read as its dotted path and its value, whatever blank text stands around them; the section
   may be left out where the path alone does not start with one.
   */
  lemma ReadsAs(provider: string, section: string, fields: seq<string>, named: bool, raw: string, pads: seq<string>)
    requires fields != [] && forall i :: 0 <= i < |fields| ==> Name(fields[i])
    requires Name(section) && (section == provider || (provider == "tcp" && section == "pod_discovery"))
    requires named || (section == provider && fields[0] != provider && !(provider == "tcp" && fields[0] == "pod_discovery"))
    requires Text.Trimmed(raw) && |pads| == 4 && forall i :: 0 <= i < 4 ==> Text.Blank(pads[i])
    ensures var key := Text.Glue(if named then [section] + fields else fields, ".");
            ReadAssignment(provider, Spelled(pads, key, raw)) == Ok(Assignment(key, section, fields, raw))
  {
    var names := if named then [section] + fields else fields;
    assert named ==> names[0] == section && names[1..] == fields;
    assert PathOf(provider, names) == (section, fields);
    NamesRead(provider, names, Text.Glue(names, "."), raw, pads);
  }

  /** Text without an equals sign cannot be read at all. */
  lemma NoEqualsSign(provider: string, text: string)
    ensures ReadAssignment(provider, text) == Err(ExpectedKeyValue(text)) <==> '=' !in text
  {
    Text.SplitOnceNowhere(text, '=');
  }

  /** Nor can text with nothing on one side of its first equals sign. */
  lemma NothingOnOneSide(provider: string, left: string, right: string)
    requires '=' !in left
    ensures var text := left + "=" + right;
            ReadAssignment(provider, text) == Err(InvalidAssignment(text)) <==> Text.Blank(left) || Text.Blank(right)
  {
    Text.SplitOnceAt(left, '=', right);
    Text.TrimsToNothing(left);
    Text.TrimsToNothing(right);
  }

  // --------------------------------------------------------------------- value

  /** The settings a section has. */
  function FieldsOf(section: string): set<string> {
    if section == "pod_discovery" then {"cri_socket"}
    else if section == "storage" then {"enabled", "interval_seconds", "mounts"}
    else {"enabled", "interval_seconds"}
  }

  /** The value a text gives: for the socket itself or a quoted text, and otherwise a JSON literal. */
  function Given(p: Parsers, section: string, raw: string): Option<Json>
    requires raw != ""
  {
    if section != "pod_discovery" then p.literal(raw)
    else if raw[0] != '"' then Some(String(raw))
    else match p.quoted(raw) case Some(text) => Some(String(text)) case None => None
  }

  function SetFlag(s: Settings, section: string, flag: bool): Settings {
    if section == "storage" then s.(storage := s.storage.(enabled := flag))
    else if section == "memory" then s.(memory := s.memory.(enabled := flag))
    else if section == "cpu" then s.(cpu := s.cpu.(enabled := flag))
    else if section == "network" then s.(network := s.network.(enabled := flag))
    else if section == "disk_io" then s.(diskIo := s.diskIo.(enabled := flag))
    else s.(tcp := s.tcp.(enabled := flag))
  }

  function SetInterval(s: Settings, section: string, seconds: u64): Settings {
    if section == "storage" then s.(storage := s.storage.(intervalSeconds := seconds))
    else if section == "memory" then s.(memory := s.memory.(intervalSeconds := seconds))
    else if section == "cpu" then s.(cpu := s.cpu.(intervalSeconds := seconds))
    else if section == "network" then s.(network := s.network.(intervalSeconds := seconds))
    else if section == "disk_io" then s.(diskIo := s.diskIo.(intervalSeconds := seconds))
    else s.(tcp := s.tcp.(intervalSeconds := seconds))
  }

  predicate Texts(items: seq<Json>) {
    forall i :: 0 <= i < |items| ==> items[i].String?
  }

  /** The settings with one of them replaced, if the value is of its type. */
  function WithSetting(s: Settings, section: string, field: string, value: Json): Option<Settings> {
    if field == "enabled" && value.Bool? then Some(SetFlag(s, section, value.flag))
    else if field == "interval_seconds" && value.Integer? && 0 <= value.number < U64_LIMIT
    then Some(SetInterval(s, section, value.number))
    else if field == "mounts" && value.Array? && Texts(value.items)
    then Some(s.(storage := s.storage.(mounts := seq(|value.items|, i requires 0 <= i < |value.items| => value.items[i].text))))
    else if field == "cri_socket" && value.String? then Some(s.(podDiscovery := PodDiscoveryConfig(value.text)))
    else None
  }

  // ------------------------------------------------------------ one section's tree

  /** A section's tree with one field replaced. */
  function SetField(section: Json, field: string, value: Json): Json
    requires section.Object?
  {
    Object(section.fields[field := value])
  }

  lemma SectionFields(c: RuntimeConfig, section: string)
    requires section in PROVIDERS || section == "pod_discovery"
    ensures section in SECTIONS && EncodeSection(c, section).Object?
    ensures EncodeSection(c, section).fields.Keys == FieldsOf(section)
  {
  }

  lemma CollectorEdited(c: CollectorConfig, flag: bool, seconds: u64)
    ensures EncodeCollector(c.(enabled := flag)) == SetField(EncodeCollector(c), "enabled", Bool(flag))
    ensures EncodeCollector(c.(intervalSeconds := seconds)) == SetField(EncodeCollector(c), "interval_seconds", Integer(seconds))
  {
  }

  lemma StorageEdited(s: StorageConfig, flag: bool, seconds: u64)
    ensures EncodeStorage(s.(enabled := flag)) == SetField(EncodeStorage(s), "enabled", Bool(flag))
    ensures EncodeStorage(s.(intervalSeconds := seconds)) == SetField(EncodeStorage(s), "interval_seconds", Integer(seconds))
  {
    var mounts := EncodeStorage(s).fields["mounts"];
    assert EncodeStorage(s.(enabled := flag)).fields["mounts"] == mounts;
    assert EncodeStorage(s.(intervalSeconds := seconds)).fields["mounts"] == mounts;
  }

  lemma MountsEdited(s: StorageConfig, items: seq<Json>, mounts: seq<string>)
    requires Texts(items) && |mounts| == |items| && forall i :: 0 <= i < |items| ==> mounts[i] == items[i].text
    ensures EncodeStorage(s.(mounts := mounts)) == SetField(EncodeStorage(s), "mounts", Array(items))
  {
    var after := EncodeStorage(s.(mounts := mounts));
    assert after.fields["mounts"].items == items;
  }

  lemma SocketEdited(p: PodDiscoveryConfig, socket: string)
    ensures EncodePodDiscovery(PodDiscoveryConfig(socket)) == SetField(EncodePodDiscovery(p), "cri_socket", String(socket))
  {
  }

  lemma CollectorSet(s: Settings, section: string, flag: bool, seconds: u64)
    requires section in PROVIDERS && section != "storage"
    ensures CollectorOf(SetFlag(s, section, flag), section) == CollectorOf(s, section).(enabled := flag)
    ensures CollectorOf(SetInterval(s, section, seconds), section) == CollectorOf(s, section).(intervalSeconds := seconds)
  {
  }

  lemma OwnSection(c: RuntimeConfig, section: string, field: string, value: Json)
    requires section in PROVIDERS || section == "pod_discovery"
    requires field in FieldsOf(section) && WithSetting(c.settings, section, field, value).Some?
    ensures EncodeSection(c, section).Object?
    ensures EncodeSection(c.(settings := WithSetting(c.settings, section, field, value).value), section)
         == SetField(EncodeSection(c, section), field, value)
  {
    var s := c.settings;
    var flag: bool := if value.Bool? then value.flag else false;
    var seconds: u64 := if value.Integer? && 0 <= value.number < U64_LIMIT then value.number else 0;
    if section == "pod_discovery" {
      SocketEdited(s.podDiscovery, value.text);
    } else if section == "storage" {
      if field == "mounts" {
        MountsEdited(s.storage, value.items, WithSetting(s, section, field, value).value.storage.mounts);
      } else {
        StorageEdited(s.storage, flag, seconds);
      }
    } else {
      CollectorSet(s, section, flag, seconds);
      CollectorEdited(CollectorOf(s, section), flag, seconds);
    }
  }

  lemma FlagElsewhere(c: RuntimeConfig, section: string, flag: bool, key: string)
    requires section in PROVIDERS && key in SECTIONS && key != section
    ensures EncodeSection(c.(settings := SetFlag(c.settings, section, flag)), key) == EncodeSection(c, key)
  {
  }

  lemma IntervalElsewhere(c: RuntimeConfig, section: string, seconds: u64, key: string)
    requires section in PROVIDERS && key in SECTIONS && key != section
    ensures EncodeSection(c.(settings := SetInterval(c.settings, section, seconds)), key) == EncodeSection(c, key)
  {
  }

  lemma OtherSection(c: RuntimeConfig, section: string, field: string, value: Json, key: string)
    requires section in PROVIDERS || section == "pod_discovery"
    requires field in FieldsOf(section) && WithSetting(c.settings, section, field, value).Some?
    requires key in SECTIONS && key != section
    ensures EncodeSection(c.(settings := WithSetting(c.settings, section, field, value).value), key) == EncodeSection(c, key)
  {
    if field == "enabled" {
      FlagElsewhere(c, section, value.flag, key);
    } else if field == "interval_seconds" {
      IntervalElsewhere(c, section, value.number, key);
    }
  }

  // ------------------------------------------------------------- the whole tree

  lemma UpdatedAt(t: map<string, Json>, u: map<string, Json>, k: string, v: Json)
    requires t.Keys == u.Keys && k in t
    requires forall x :: x in t ==> u[x] == if x == k then v else t[x]
    ensures u == t[k := v]
  {
  }

  lemma EncodedAt(c: RuntimeConfig, key: string)
    requires key in SECTIONS
    ensures key in Encode(c).fields && Encode(c).fields[key] == EncodeSection(c, key)
  {
  }

  /** Replacing a setting and replacing its node in the tree come to the same. */
  lemma EncodeWith(c: RuntimeConfig, section: string, field: string, value: Json)
    requires section in PROVIDERS || section == "pod_discovery"
    requires field in FieldsOf(section) && WithSetting(c.settings, section, field, value).Some?
    ensures section in Encode(c).fields && Encode(c).fields[section] == EncodeSection(c, section)
    ensures EncodeSection(c, section).Object?
    ensures Encode(c.(settings := WithSetting(c.settings, section, field, value).value))
         == Object(Encode(c).fields[section := SetField(EncodeSection(c, section), field, value)])
  {
    var after := c.(settings := WithSetting(c.settings, section, field, value).value);
    var t, u := Encode(c).fields, Encode(after).fields;
    SectionFields(c, section);
    OwnSection(c, section, field, value);
    EncodedAt(c, section);
    EncodedAt(after, section);
    forall key | key in t && key != section
      ensures u[key] == t[key]
    {
      OtherSection(c, section, field, value, key);
      EncodedAt(c, key);
      EncodedAt(after, key);
    }
    UpdatedAt(t, u, section, SetField(EncodeSection(c, section), field, value));
  }

  lemma FieldNode(section: Json, field: string, value: Json, key: string)
    requires section.Object?
    ensures At(section, [field], key) == if field in section.fields then Ok(section.fields[field]) else Err(UnknownSetting(key))
    ensures field in section.fields ==> Reaches(section, [field]) && Put(section, [field], value) == SetField(section, field, value)
  {
    var path := [field];
    assert path[1..] == [];
    if field in section.fields {
      assert At(section.fields[field], [], key) == Ok(section.fields[field]);
      assert Put(section.fields[field], [], value) == value;
    }
  }

  lemma NodeIsText(c: RuntimeConfig, section: string, field: string)
    requires section in PROVIDERS || section == "pod_discovery"
    requires field in FieldsOf(section)
    ensures EncodeSection(c, section).Object? && field in EncodeSection(c, section).fields
    ensures EncodeSection(c, section).fields[field].String? <==> section == "pod_discovery"
  {
  }

  /** One assignment to a single field, on the tree: the first thing that is wrong, or the node replaced. */
  lemma OneSetting(p: Parsers, c: RuntimeConfig, provider: string, text: string, section: string, field: string, key: string, raw: string)
    requires provider in PROVIDERS && raw != ""
    requires ReadAssignment(provider, text) == Ok(Assignment(key, section, [field], raw))
    ensures EncodeSection(c, section).Object?
    ensures ApplyOne(p, provider, Encode(c), text)
         == if field !in FieldsOf(section) then Err(UnknownSetting(key))
            else match Given(p, section, raw)
              case None => Err(if section == "pod_discovery" then InvalidQuoted(key) else InvalidLiteral(key))
              case Some(value) => Ok(Object(Encode(c).fields[section := SetField(EncodeSection(c, section), field, value)]))
  {
    assert Selected(provider, section);
    SectionFields(c, section);
    EncodedAt(c, section);
    var value := Given(p, section, raw);
    FieldNode(EncodeSection(c, section), field, if value.Some? then value.value else Null, key);
    if field in FieldsOf(section) {
      NodeIsText(c, section, field);
    }
  }

  // ------------------------------------------------------------------ mistyped

  lemma DecodeRefuses(value: Json)
    ensures Decode(value).Err? ==> Decode(value).error == InvalidSettings
  {
  }

  lemma MistypedCollector(t: map<string, Json>, section: string, c: CollectorConfig, field: string, value: Json, fallback: CollectorConfig)
    requires section in t && t[section] == SetField(EncodeCollector(c), field, value)
    requires field == "enabled" ==> !value.Bool?
    requires field == "interval_seconds" ==> !(value.Integer? && 0 <= value.number < U64_LIMIT)
    requires field == "enabled" || field == "interval_seconds"
    ensures CollectorAt(t, section, fallback).Err?
  {
  }

  lemma MistypedStorage(t: map<string, Json>, s: StorageConfig, field: string, value: Json)
    requires "storage" in t && t["storage"] == SetField(EncodeStorage(s), field, value)
    requires field == "enabled" ==> !value.Bool?
    requires field == "interval_seconds" ==> !(value.Integer? && 0 <= value.number < U64_LIMIT)
    requires field == "mounts" ==> !(value.Array? && Texts(value.items))
    requires field == "enabled" || field == "interval_seconds" || field == "mounts"
    ensures StorageAt(t, DEFAULT_SETTINGS.storage).Err?
  {
  }

  lemma DecodeNeeds(value: Json, section: string)
    requires value.Object? && (section in PROVIDERS || section == "pod_discovery")
    requires if section == "storage" then StorageAt(value.fields, DEFAULT_SETTINGS.storage).Err?
             else if section == "pod_discovery" then PodDiscoveryAt(value.fields, DEFAULT_SETTINGS.podDiscovery).Err?
             else CollectorAt(value.fields, section, CollectorOf(DEFAULT_SETTINGS, section)).Err?
    ensures Decode(value) == Err(InvalidSettings)
  {
    DecodeRefuses(value);
    if Decode(value).Ok? {
      DecodeParts(value);
    }
  }

  /** A value that is not of its setting's type is refused by the typed reading. */
  lemma MistypedIsRefused(c: RuntimeConfig, section: string, field: string, value: Json)
    requires section in PROVIDERS || section == "pod_discovery"
    requires field in FieldsOf(section) && WithSetting(c.settings, section, field, value).None?
    ensures EncodeSection(c, section).Object?
    ensures Decode(Object(Encode(c).fields[section := SetField(EncodeSection(c, section), field, value)])) == Err(InvalidSettings)
  {
    SectionFields(c, section);
    EncodedAt(c, section);
    var tree := Object(Encode(c).fields[section := SetField(EncodeSection(c, section), field, value)]);
    if section == "storage" {
      MistypedStorage(tree.fields, c.settings.storage, field, value);
    } else if section != "pod_discovery" {
      MistypedCollector(tree.fields, section, CollectorOf(c.settings, section), field, value,
                        CollectorOf(DEFAULT_SETTINGS, section));
    }
    DecodeNeeds(tree, section);
  }

  // ---------------------------------------------------------------- main results

  function Checked(config: RuntimeConfig): Outcome<RuntimeConfig> {
    var checked := Validate(config);
    if checked.Ok? then Ok(config) else Err(InvalidConfig(checked.error))
  }

  /**
   What a command with one assignment to a setting returns: the config with exactly that setting changed, if the
   setting exists, the value can be read, it is of the setting's type and the outcome is valid; and otherwise the
   error of the first of these four that fails.
   */
  lemma SettingIsExact(
    p: Parsers, config: RuntimeConfig, provider: string, text: string, section: string, field: string, key: string, raw: string)
    requires provider in PROVIDERS && raw != ""
    requires ReadAssignment(provider, text) == Ok(Assignment(key, section, [field], raw))
    ensures Overridden(p, config, provider, [text])
         == if field !in FieldsOf(section) then Err(UnknownSetting(key))
            else match Given(p, section, raw)
              case None => Err(if section == "pod_discovery" then InvalidQuoted(key) else InvalidLiteral(key))
              case Some(value) =>
                match WithSetting(config.settings, section, field, value)
                case None => Err(InvalidSettings)
                case Some(after) => Checked(config.(settings := after))
  {
    TwoAssignments(p, provider, Encode(config), text, text);
    OneSetting(p, config, provider, text, section, field, key, raw);
    assert Selected(provider, section);
    var value := Given(p, section, raw);
    if field in FieldsOf(section) && value.Some? {
      var after := WithSetting(config.settings, section, field, value.value);
      if after.Some? {
        EncodeWith(config, section, field, value.value);
        DecodeEncode(config.(settings := after.value));
      } else {
        MistypedIsRefused(config, section, field, value.value);
      }
    }
  }

  /** The settings after a list of assignments, as long as each names a setting and gives it a value of its type. */
  function Edited(p: Parsers, provider: string, s: Settings, texts: seq<string>): Option<Settings>
    decreases |texts|
  {
    if texts == [] then Some(s)
    else
      var a := ReadAssignment(provider, texts[0]);
      if a.Err? || |a.value.fields| != 1 || a.value.fields[0] !in FieldsOf(a.value.section) then None
      else
        var value := Given(p, a.value.section, a.value.raw);
        if value.None? then None
        else
          var next := WithSetting(s, a.value.section, a.value.fields[0], value.value);
          if next.None? then None else Edited(p, provider, next.value, texts[1..])
  }

  lemma {:induction false} EditsFollow(p: Parsers, provider: string, config: RuntimeConfig, texts: seq<string>)
    requires provider in PROVIDERS && Edited(p, provider, config.settings, texts).Some?
    ensures ApplyAll(p, provider, Encode(config), texts)
         == Ok(Encode(config.(settings := Edited(p, provider, config.settings, texts).value)))
    decreases |texts|
  {
    if texts != [] {
      var a := ReadAssignment(provider, texts[0]).value;
      var section, field, value := a.section, a.fields[0], Given(p, a.section, a.raw).value;
      assert a == Assignment(a.key, section, [field], a.raw);
      OneSetting(p, config, provider, texts[0], section, field, a.key, a.raw);
      EncodeWith(config, section, field, value);
      EditsFollow(p, provider, config.(settings := WithSetting(config.settings, section, field, value).value), texts[1..]);
    }
  }

  /** Well-typed assignments take effect one after the other, and the result is what all of them leave, if valid. */
  lemma EditsTakeEffectInOrder(p: Parsers, provider: string, config: RuntimeConfig, texts: seq<string>)
    requires provider in PROVIDERS && texts != [] && Edited(p, provider, config.settings, texts).Some?
    ensures Overridden(p, config, provider, texts)
         == Checked(config.(settings := Edited(p, provider, config.settings, texts).value))
  {
    EditsFollow(p, provider, config, texts);
    DecodeEncode(config.(settings := Edited(p, provider, config.settings, texts).value));
  }
}
