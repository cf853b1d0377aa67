// equipa/config.py: reading a dispatch config, its feature flags, and what a
// per-run file keeps from the host's.

/** Which flags and safety settings a dispatch config means, and how two of them merge. */
module DispatchConfig {
  import opened Json
  import opened Text
  import opened PathTranslation
  import opened Wrappers

  const FEATURES := "features"
  const SECURITY_REVIEW := "security_review"
  const LOAD_ERROR := "_config_load_error"
  const AGENT_ISOLATION := "agent_isolation"
  const BASH_HOOK := "bash_security_pretooluse"
  const TRANSLATIONS := "path_translations"
  const PER_RUN_TRANSLATIONS := "_per_run_path_translations"
  const TRUSTED_EXECUTABLES := "mcp_trusted_executables"
  const TRUSTED_URLS := "mcp_uvx_trusted_urls"
  const SCAFFOLD_DIR := "forgescaffold_dir"

  const DEFAULT_MODEL := "claude-opus-5-5[1m]"

  predicate IsFailClosed(flag: string) {
    flag == BASH_HOOK || flag == AGENT_ISOLATION
  }

  const FLAGS_ON: set<string> := {
    "language_prompts", "forgesmith_lessons", "forgesmith_episodes", SECURITY_REVIEW,
    "security_review_block_on_missing_artifact", "quality_scoring", "anti_compaction_state",
    "autoresearch", "personal_pm_tables"
  }

  const FLAGS_OFF: set<string> := {
    "hooks", "mcp_health", "gepa_ab_testing", BASH_HOOK, AGENT_ISOLATION, "vector_memory",
    "auto_model_routing", "knowledge_graph", "rlm_decompose", "config_versioning",
    "session_persistence", "project_templates"
  }

  /** DEFAULT_FEATURE_FLAGS */
  function DefaultFlags(): map<string, Json> {
    map flag | flag in FLAGS_ON + FLAGS_OFF :: JBool(flag in FLAGS_ON)
  }

  /** DEFAULT_DISPATCH_CONFIG */
  function Defaults(): map<string, Json> {
    map[
      "max_concurrent" := JInt(8), "model" := JStr(DEFAULT_MODEL), "max_turns" := JInt(25),
      "max_tasks_per_project" := JInt(3), "skip_projects" := JArr([]), "priority_boost" := JObj(map[]),
      "only_projects" := JArr([]), SECURITY_REVIEW := JBool(true), FEATURES := JObj(DefaultFlags()),
      "autoresearch_max_retries" := JInt(3)
    ]
  }

  /** config.get(key) */
  function Get(entries: map<string, Json>, key: string): Option<Json> {
    if key in entries then Some(entries[key]) else None
  }

  // -------------------------------------------------------------------------
  // Reading a flag
  // -------------------------------------------------------------------------

  /** _parse_feature_flag: the bool a configured value means, if it means one. */
  function ParseFlag(u: Unicode, value: Json): Option<bool> {
    match value
    case JBool(b) => Some(b)
    case JInt(n) => if n == 0 || n == 1 then Some(n == 1) else None
    case JStr(s) =>
      var normalized := u.lower(Strip(s, u.isSpace));
      if normalized == "true" || normalized == "1" then Some(true)
      else if normalized == "false" || normalized == "0" then Some(false)
      else None
    case _ => None
  }

  function Fallback(flag: string, default: bool): bool {
    IsFailClosed(flag) || default
  }

  /** is_feature_enabled on a dict. */
  function On(u: Unicode, entries: map<string, Json>, flag: string): bool {
    var default := flag in FLAGS_ON;
    var features := if FEATURES in entries then entries[FEATURES] else JObj(map[]);
    if LOAD_ERROR in entries && Truthy(entries[LOAD_ERROR]) && IsFailClosed(flag) then true
    else if !features.JObj? then Fallback(flag, default)
    else if flag !in features.fields then default
    else
      var parsed := ParseFlag(u, features.fields[flag]);
      if parsed.Some? then parsed.value else Fallback(flag, default)
  }

  /** is_feature_enabled: the config may also be absent or not an object. */
  function FeatureEnabled(u: Unicode, config: Option<Json>, flag: string): bool {
    match config
    case None => flag in FLAGS_ON
    case Some(JObj(entries)) => On(u, entries, flag)
    case Some(_) => Fallback(flag, flag in FLAGS_ON)
  }

  /** is_security_review_enabled: the command line first, then the config, and the feature flag can only disable. */
  function ReviewOn(u: Unicode, commandLine: Option<bool>, entries: map<string, Json>): bool {
    var asked :=
      if commandLine.Some? then commandLine.value
      else if SECURITY_REVIEW in entries then Truthy(entries[SECURITY_REVIEW])
      else true;
    asked && On(u, entries, SECURITY_REVIEW)
  }

  /** A fail-closed gate is off only for a readable config whose features object
      leaves it out or says one of the spellings of false. */
  lemma GateIsOffIff(u: Unicode, config: Option<Json>, gate: string)
    requires IsFailClosed(gate)
    ensures !FeatureEnabled(u, config, gate) <==>
            || config.None?
            || (&& config.value.JObj?
                && (LOAD_ERROR in config.value.fields ==> !Truthy(config.value.fields[LOAD_ERROR]))
                && (FEATURES in config.value.fields ==>
                      && config.value.fields[FEATURES].JObj?
                      && (gate in config.value.fields[FEATURES].fields ==>
                            ParseFlag(u, config.value.fields[FEATURES].fields[gate]) == Some(false))))
  {
    assert gate !in FLAGS_ON;
    if config.Some? && config.value.JObj? {
      var features := if FEATURES in config.value.fields then config.value.fields[FEATURES] else JObj(map[]);
      if features.JObj? && gate in features.fields {
        var parsed := ParseFlag(u, features.fields[gate]);
        assert parsed.Some? ==> parsed == Some(true) || parsed == Some(false);
      }
    }
  }

  /** Any other flag is what a usable config validly says, and its default otherwise. */
  lemma OtherFlagsReadTheirValueOrDefault(u: Unicode, config: Option<Json>, flag: string)
    requires !IsFailClosed(flag)
    ensures FeatureEnabled(u, config, flag) <==>
            if && config.Some? && config.value.JObj? && FEATURES in config.value.fields
               && config.value.fields[FEATURES].JObj? && flag in config.value.fields[FEATURES].fields
               && ParseFlag(u, config.value.fields[FEATURES].fields[flag]).Some?
            then ParseFlag(u, config.value.fields[FEATURES].fields[flag]).value
            else flag in FLAGS_ON
  {
  }

  // -------------------------------------------------------------------------
  // One file
  // -------------------------------------------------------------------------

  datatype Content = Missing | Unreadable(error: string) | Parsed(json: Json)

  datatype File = File(path: string, content: Content)

  function LoadFailed(path: string, error: string): map<string, Json> {
    Defaults()[LOAD_ERROR := JStr(path + ": " + error)]
  }

  const NOT_AN_OBJECT := "the top level is not an object"

  function OverlaidFeatures(data: map<string, Json>): Json {
    if FEATURES !in data then JObj(DefaultFlags())
    else if data[FEATURES].JObj? then JObj(DefaultFlags() + data[FEATURES].fields)
    else data[FEATURES]
  }

  /** The file over the defaults, key by key, and its features over the default flags. */
  function Overlay(data: map<string, Json>): map<string, Json> {
    (Defaults() + data)[FEATURES := OverlaidFeatures(data)]
  }

  /** _read_dispatch_config */
  function Merged(file: File): map<string, Json> {
    match file.content
    case Missing => Defaults()
    case Unreadable(error) => LoadFailed(file.path, error)
    case Parsed(JObj(data)) => Overlay(data)
    case Parsed(_) => LoadFailed(file.path, NOT_AN_OBJECT)
  }

  /** Naming some flags in a file leaves every other flag at its default. */
  lemma PartialFeaturesKeepTheOthers(u: Unicode, path: string, data: map<string, Json>, flag: string)
    requires FEATURES in data && data[FEATURES].JObj? && flag !in data[FEATURES].fields && LOAD_ERROR !in data
    ensures On(u, Merged(File(path, Parsed(JObj(data)))), flag) == (flag in FLAGS_ON)
  {
    var features := DefaultFlags() + data[FEATURES].fields;
    assert flag in features ==> flag in DefaultFlags() && features[flag] == DefaultFlags()[flag];
    OnByFeatures(u, Overlay(data), features, flag);
  }

  lemma OnByFeatures(u: Unicode, entries: map<string, Json>, features: map<string, Json>, flag: string)
    requires FEATURES in entries && entries[FEATURES] == JObj(features) && LOAD_ERROR !in entries
    requires flag in features ==> flag in DefaultFlags() && features[flag] == DefaultFlags()[flag]
    ensures On(u, entries, flag) == (flag in FLAGS_ON)
  {
  }

  /** What a configured value means: a word in a string, whatever space is around it, and
      the two numbers; nothing else. */
  lemma SpellingsAre(u: Unicode, before: string, word: string, after: string, n: int, other: Json)
    requires word != "" && !u.isSpace(word[0]) && !u.isSpace(word[|word| - 1])
    requires (forall c :: c in before ==> u.isSpace(c)) && forall c :: c in after ==> u.isSpace(c)
    ensures ParseFlag(u, JStr(before + word + after)) ==
            if u.lower(word) in ["true", "1"] then Some(true) else if u.lower(word) in ["false", "0"] then Some(false) else None
    ensures ParseFlag(u, JBool(true)) == ParseFlag(u, JInt(1)) == Some(true)
    ensures ParseFlag(u, JBool(false)) == ParseFlag(u, JInt(0)) == Some(false)
    ensures n != 0 && n != 1 ==> ParseFlag(u, JInt(n)) == None
    ensures other.JNull? || other.JReal? || other.JArr? || other.JObj? ==> ParseFlag(u, other) == None
  {
    PaddingIsStripped(before, word, after, u.isSpace);
  }

  /** The value of a file beats the default, key by key and flag by flag. */
  lemma TheFileDecides(u: Unicode, path: string, data: map<string, Json>, key: string, flag: string)
    ensures var m := Merged(File(path, Parsed(JObj(data))));
            && (key != FEATURES && key in data ==> Get(m, key) == Some(data[key]))
            && (key != FEATURES && key !in data ==> Get(m, key) == Get(Defaults(), key))
            && (&& FEATURES in data && data[FEATURES].JObj? && flag in data[FEATURES].fields
                && ParseFlag(u, data[FEATURES].fields[flag]).Some? && (LOAD_ERROR in data ==> !IsFailClosed(flag)) ==>
                  On(u, m, flag) == ParseFlag(u, data[FEATURES].fields[flag]).value)
  {
    var m := Overlay(data);
    assert LOAD_ERROR !in Defaults();
    if FEATURES in data && data[FEATURES].JObj? && flag in data[FEATURES].fields {
      assert m[FEATURES] == JObj(DefaultFlags() + data[FEATURES].fields);
      assert m[FEATURES].fields[flag] == data[FEATURES].fields[flag];
    }
  }

  /** The security review of a config file: its feature flag, said to be off, rules it out;
      otherwise the command line decides, and without one the file. */
  lemma ReviewOfFile(u: Unicode, path: string, data: map<string, Json>, asked: bool)
    ensures var m := Merged(File(path, Parsed(JObj(data))));
            if && FEATURES in data && data[FEATURES].JObj? && SECURITY_REVIEW in data[FEATURES].fields
               && ParseFlag(u, data[FEATURES].fields[SECURITY_REVIEW]) == Some(false)
            then !ReviewOn(u, Some(asked), m) && !ReviewOn(u, None, m)
            else ReviewOn(u, Some(asked), m) == asked && ReviewOn(u, None, m) == (SECURITY_REVIEW in data ==> Truthy(data[SECURITY_REVIEW]))
  {
    TheFileDecides(u, path, data, SECURITY_REVIEW, SECURITY_REVIEW);
    var m := Overlay(data);
    assert SECURITY_REVIEW in FLAGS_ON && Defaults()[SECURITY_REVIEW] == JBool(true);
    if FEATURES in data && data[FEATURES].JObj? {
      assert m[FEATURES] == JObj(DefaultFlags() + data[FEATURES].fields);
    } else if FEATURES !in data {
      assert DefaultFlags()[SECURITY_REVIEW] == JBool(true);
    }
  }

  // -------------------------------------------------------------------------
  // What is carried over from the host config
  // -------------------------------------------------------------------------

  function WithFlagOn(features: Json, flag: string): Json
    requires features.JObj?
  {
    JObj(features.fields[flag := JBool(true)])
  }

  /** _carry_host_gate */
  function CarryGate(u: Unicode, own: map<string, Json>, host: map<string, Json>, gate: string): map<string, Json> {
    if !On(u, host, gate) || FEATURES !in own || !own[FEATURES].JObj? then own
    else own[FEATURES := WithFlagOn(own[FEATURES], gate)]
  }

  /** _carry_host_security_review */
  function CarryReview(u: Unicode, own: map<string, Json>, host: map<string, Json>): map<string, Json> {
    if !ReviewOn(u, None, host) || ReviewOn(u, None, own) then own
    else
      var asked := own[SECURITY_REVIEW := JBool(true)];
      if FEATURES in own && own[FEATURES].JObj? then asked[FEATURES := WithFlagOn(own[FEATURES], SECURITY_REVIEW)]
      else asked
  }

  predicate HasSettings(section: Option<Json>) {
    section.Some? && section.value.JObj? && section.value.fields != map[]
  }

  /** _carry_host_isolation_section */
  function CarrySection(u: Unicode, own: map<string, Json>, host: map<string, Json>): map<string, Json> {
    if !On(u, host, AGENT_ISOLATION) || !HasSettings(Get(host, AGENT_ISOLATION)) || HasSettings(Get(own, AGENT_ISOLATION))
    then own
    else own[AGENT_ISOLATION := host[AGENT_ISOLATION]]
  }

  /** The list under key; anything else reads as no entries. */
  function ListOf(value: Option<Json>): seq<Json> {
    if value.Some? && value.value.JArr? then value.value.items else []
  }

  /** _carry_host_path_translations */
  function CarryTranslations(u: Unicode, own: map<string, Json>, host: map<string, Json>): map<string, Json> {
    var hostEntries := ListOf(Get(host, TRANSLATIONS));
    if hostEntries == [] && !(TRANSLATIONS in own && own[TRANSLATIONS].JArr?) then own
    else
      var kept := Kept(u, hostEntries, ListOf(Get(own, TRANSLATIONS)));
      var merged := own[TRANSLATIONS := JArr(hostEntries + kept)];
      if kept == [] then merged else merged[PER_RUN_TRANSLATIONS := JArr(kept)]
  }

  /** The entries that are not there yet, appended in order. */
  function Appended(list: seq<Json>, own: seq<Json>): seq<Json>
    decreases |own|
  {
    if own == [] then list
    else Appended(if In(own[0], list) then list else list + [own[0]], own[1..])
  }

  /** _carry_host_list */
  function CarryList(own: map<string, Json>, host: map<string, Json>, key: string): map<string, Json> {
    if ListOf(Get(host, key)) == [] then own
    else own[key := JArr(Appended(ListOf(Get(host, key)), ListOf(Get(own, key))))]
  }

  function CarryLayout(own: map<string, Json>, host: map<string, Json>): map<string, Json> {
    if SCAFFOLD_DIR !in own && SCAFFOLD_DIR in host then own[SCAFFOLD_DIR := host[SCAFFOLD_DIR]] else own
  }

  function CarriedGates(u: Unicode, own: map<string, Json>, host: map<string, Json>): map<string, Json> {
    CarryGate(u, CarryGate(u, own, host, AGENT_ISOLATION), host, BASH_HOOK)
  }

  function CarriedSettings(u: Unicode, own: map<string, Json>, host: map<string, Json>): map<string, Json> {
    CarryTranslations(u, CarrySection(u, CarryReview(u, CarriedGates(u, own, host), host), host), host)
  }

  /** _carry_host_settings, once the host file is known to be another one. */
  function Carried(u: Unicode, own: map<string, Json>, host: map<string, Json>): map<string, Json> {
    CarryLayout(CarryList(CarryList(CarriedSettings(u, own, host), host, TRUSTED_EXECUTABLES), host, TRUSTED_URLS), host)
  }

  /** load_dispatch_config for a per-run file. same: both paths are one file. */
  function Loaded(u: Unicode, own: File, host: File, same: bool): map<string, Json> {
    var mine := Merged(own) - {PER_RUN_TRANSLATIONS};
    if same || host.content.Missing? then mine else Carried(u, mine, Merged(host))
  }

  // -------------------------------------------------------------------------
  // The config object
  // -------------------------------------------------------------------------

  method NotMapped(u: Unicode, hostEntries: seq<Json>, own: seq<Json>) returns (kept: seq<Json>)
    ensures kept == Kept(u, hostEntries, own)
  {
    kept := [];
    for i := 0 to |own|
      invariant kept == Kept(u, hostEntries, own[..i])
    {
      KeptOneMore(u, hostEntries, own[..i], own[i]);
      assert own[..i] + [own[i]] == own[..i + 1];
      if HostMaps(u, hostEntries, own[i]) {
        continue;
      }
      kept := kept + [own[i]];
    }
    assert own[..|own|] == own;
  }

  function Known(entries: map<string, Json>, data: map<string, Json>): map<string, Json> {
    map key | key in entries :: if key in data then data[key] else entries[key]
  }

  lemma OverlayInSteps(data: map<string, Json>)
    ensures var known := Known(Defaults(), data);
      data + (if FEATURES in data && data[FEATURES].JObj? then known[FEATURES := JObj(DefaultFlags() + data[FEATURES].fields)] else known)
      == Overlay(data)
  {
    var d := Defaults();
    assert FEATURES in d && d[FEATURES] == JObj(DefaultFlags());
  }

  class Config {
    var entries: map<string, Json>

    /** _read_dispatch_config: defaults, then the file's values for their keys, then its features, then the rest. */
    constructor Read(file: File)
      ensures entries == Merged(file)
    {
      entries := Defaults();
      new;
      match file.content {
        case Missing =>
        case Unreadable(error) => entries := entries[LOAD_ERROR := JStr(file.path + ": " + error)];
        case Parsed(JObj(data)) =>
          TakeKnown(data);
          if FEATURES in data && data[FEATURES].JObj? {
            entries := entries[FEATURES := JObj(DefaultFlags() + data[FEATURES].fields)];
          }
          TakeRest(data);
          OverlayInSteps(data);
        case Parsed(_) => entries := entries[LOAD_ERROR := JStr(file.path + ": " + NOT_AN_OBJECT)];
      }
    }

    /** The file's value for every key there is. */
    method TakeKnown(data: map<string, Json>)
      modifies this
      ensures entries == Known(old(entries), data)
    {
      var todo := entries.Keys;
      ghost var start := entries;
      while todo != {}
        invariant todo <= start.Keys == entries.Keys
        invariant forall k :: k in entries ==> entries[k] == if k in data && k !in todo then data[k] else start[k]
        decreases |todo|
      {
        var key :| key in todo;
        todo := todo - {key};
        if key in data {
          entries := entries[key := data[key]];
        }
      }
    }

    /** Every key of the file that there is not. */
    method TakeRest(data: map<string, Json>)
      modifies this
      ensures entries == data + old(entries)
    {
      var todo := data.Keys;
      ghost var start := entries;
      while todo != {}
        invariant todo <= data.Keys && entries.Keys == start.Keys + (data.Keys - todo)
        invariant forall k :: k in entries ==> entries[k] == if k in start then start[k] else data[k]
        decreases |todo|
      {
        var key :| key in todo;
        todo := todo - {key};
        if key !in entries {
          entries := entries[key := data[key]];
        }
      }
    }

    method KeepGate(u: Unicode, host: map<string, Json>, gate: string)
      modifies this
      ensures entries == CarryGate(u, old(entries), host, gate)
    {
      if !On(u, host, gate) || FEATURES !in entries || !entries[FEATURES].JObj? {
        return;
      }
      entries := entries[FEATURES := JObj(entries[FEATURES].fields[gate := JBool(true)])];
    }

    method KeepReview(u: Unicode, host: map<string, Json>)
      modifies this
      ensures entries == CarryReview(u, old(entries), host)
    {
      if !ReviewOn(u, None, host) || ReviewOn(u, None, entries) {
        return;
      }
      entries := entries[SECURITY_REVIEW := JBool(true)];
      if FEATURES in entries && entries[FEATURES].JObj? {
        entries := entries[FEATURES := JObj(entries[FEATURES].fields[SECURITY_REVIEW := JBool(true)])];
      }
    }

    method KeepSection(u: Unicode, host: map<string, Json>)
      modifies this
      ensures entries == CarrySection(u, old(entries), host)
    {
      if !On(u, host, AGENT_ISOLATION) || !HasSettings(Get(host, AGENT_ISOLATION)) {
        return;
      }
      if HasSettings(Get(entries, AGENT_ISOLATION)) {
        return;
      }
      entries := entries[AGENT_ISOLATION := host[AGENT_ISOLATION]];
    }

    method KeepTranslations(u: Unicode, host: map<string, Json>)
      modifies this
      ensures entries == CarryTranslations(u, old(entries), host)
    {
      var hostEntries := ListOf(Get(host, TRANSLATIONS));
      if hostEntries == [] && !(TRANSLATIONS in entries && entries[TRANSLATIONS].JArr?) {
        return;
      }
      var kept := NotMapped(u, hostEntries, ListOf(Get(entries, TRANSLATIONS)));
      entries := entries[TRANSLATIONS := JArr(hostEntries + kept)];
      if kept != [] {
        entries := entries[PER_RUN_TRANSLATIONS := JArr(kept)];
      }
    }

    method KeepList(host: map<string, Json>, key: string)
      modifies this
      ensures entries == CarryList(old(entries), host, key)
    {
      var hostEntries := ListOf(Get(host, key));
      if hostEntries == [] {
        return;
      }
      var own := ListOf(Get(entries, key));
      var carried := hostEntries;
      for i := 0 to |own|
        invariant Appended(carried, own[i..]) == Appended(hostEntries, own)
        invariant entries == old(entries)
      {
        assert own[i..][1..] == own[i + 1..];
        if !In(own[i], carried) {
          carried := carried + [own[i]];
        }
      }
      entries := entries[key := JArr(carried)];
    }

    method KeepHostSettings(u: Unicode, host: map<string, Json>)
      modifies this
      ensures entries == Carried(u, old(entries), host)
    {
      KeepGate(u, host, AGENT_ISOLATION);
      KeepGate(u, host, BASH_HOOK);
      KeepReview(u, host);
      KeepSection(u, host);
      KeepTranslations(u, host);
      KeepList(host, TRUSTED_EXECUTABLES);
      KeepList(host, TRUSTED_URLS);
      if SCAFFOLD_DIR !in entries && SCAFFOLD_DIR in host {
        entries := entries[SCAFFOLD_DIR := host[SCAFFOLD_DIR]];
      }
    }
  }

  /** load_dispatch_config with a per-run path. */
  method Load(u: Unicode, own: File, host: File, same: bool) returns (config: Config)
    ensures fresh(config) && config.entries == Loaded(u, own, host, same)
  {
    config := new Config.Read(own);
    config.entries := config.entries - {PER_RUN_TRANSLATIONS};
    if same || host.content.Missing? {
      return;
    }
    var hostConfig := new Config.Read(host);
    config.KeepHostSettings(u, hostConfig.entries);
  }

  // -------------------------------------------------------------------------
  // The merge never weakens the host
  // -------------------------------------------------------------------------

  /** Both read every flag, and the review, alike. */
  ghost predicate ReadAlike(u: Unicode, a: map<string, Json>, b: map<string, Json>) {
    && (forall flag :: On(u, a, flag) == On(u, b, flag))
    && (forall commandLine :: ReviewOn(u, commandLine, a) == ReviewOn(u, commandLine, b))
  }

  lemma SameSafetyReadsAlike(u: Unicode, a: map<string, Json>, b: map<string, Json>)
    requires Get(a, FEATURES) == Get(b, FEATURES)
    requires Get(a, LOAD_ERROR) == Get(b, LOAD_ERROR)
    requires Get(a, SECURITY_REVIEW) == Get(b, SECURITY_REVIEW)
    ensures ReadAlike(u, a, b)
  {
    assert FEATURES in a <==> FEATURES in b;
    assert LOAD_ERROR in a <==> LOAD_ERROR in b;
    assert SECURITY_REVIEW in a <==> SECURITY_REVIEW in b;
  }

  /** After its step a gate reads as on exactly when one of the two files has it on;
      no other flag, and not the review, reads differently. */
  lemma GateStep(u: Unicode, own: map<string, Json>, host: map<string, Json>, gate: string)
    requires IsFailClosed(gate) && FEATURES in own
    ensures var after := CarryGate(u, own, host, gate);
            && FEATURES in after
            && On(u, after, gate) == (On(u, host, gate) || On(u, own, gate))
            && (forall flag :: flag != gate ==> On(u, after, flag) == On(u, own, flag))
            && ReviewOn(u, None, after) == ReviewOn(u, None, own)
  {
  }

  lemma ReviewStep(u: Unicode, own: map<string, Json>, host: map<string, Json>)
    requires FEATURES in own
    ensures var after := CarryReview(u, own, host);
            && FEATURES in after
            && ReviewOn(u, None, after) == (ReviewOn(u, None, host) || ReviewOn(u, None, own))
            && (forall flag :: flag != SECURITY_REVIEW ==> On(u, after, flag) == On(u, own, flag))
  {
  }

  lemma SectionStep(u: Unicode, own: map<string, Json>, host: map<string, Json>)
    ensures ReadAlike(u, own, CarrySection(u, own, host))
  {
    SameSafetyReadsAlike(u, own, CarrySection(u, own, host));
  }

  lemma TranslationsStep(u: Unicode, own: map<string, Json>, host: map<string, Json>)
    ensures ReadAlike(u, own, CarryTranslations(u, own, host))
  {
    SameSafetyReadsAlike(u, own, CarryTranslations(u, own, host));
  }

  lemma ListStep(u: Unicode, own: map<string, Json>, host: map<string, Json>, key: string)
    requires key == TRUSTED_EXECUTABLES || key == TRUSTED_URLS
    ensures ReadAlike(u, own, CarryList(own, host, key))
  {
    SameSafetyReadsAlike(u, own, CarryList(own, host, key));
  }

  lemma LayoutStep(u: Unicode, own: map<string, Json>, host: map<string, Json>)
    ensures ReadAlike(u, own, CarryLayout(own, host))
  {
    SameSafetyReadsAlike(u, own, CarryLayout(own, host));
  }

  /** The first steps of the carry: gates, review, section, translations, two lists, layout. */
  function Stage(u: Unicode, own: map<string, Json>, host: map<string, Json>, steps: nat): map<string, Json> {
    if steps == 0 then own
    else
      var before := Stage(u, own, host, steps - 1);
      match steps
      case 1 => CarryGate(u, before, host, AGENT_ISOLATION)
      case 2 => CarryGate(u, before, host, BASH_HOOK)
      case 3 => CarryReview(u, before, host)
      case 4 => CarrySection(u, before, host)
      case 5 => CarryTranslations(u, before, host)
      case 6 => CarryList(before, host, TRUSTED_EXECUTABLES)
      case 7 => CarryList(before, host, TRUSTED_URLS)
      case _ => CarryLayout(before, host)
  }

  predicate StepFor(steps: nat, what: string) {
    (what == AGENT_ISOLATION && steps >= 1) || (what == BASH_HOOK && steps >= 2) || (what == SECURITY_REVIEW && steps >= 3)
  }

  /** The gate what, or the review. */
  predicate SafetyOn(u: Unicode, entries: map<string, Json>, what: string) {
    if what == SECURITY_REVIEW then ReviewOn(u, None, entries) else On(u, entries, what)
  }

  lemma {:induction false} StageReads(u: Unicode, own: map<string, Json>, host: map<string, Json>, steps: nat, what: string)
    requires FEATURES in own && (IsFailClosed(what) || what == SECURITY_REVIEW)
    ensures var after := Stage(u, own, host, steps);
            && FEATURES in after
            && SafetyOn(u, after, what) == (SafetyOn(u, own, what) || (StepFor(steps, what) && SafetyOn(u, host, what)))
  {
    if steps > 0 {
      StageReads(u, own, host, steps - 1, what);
      var before := Stage(u, own, host, steps - 1);
      match steps {
        case 1 => GateStep(u, before, host, AGENT_ISOLATION);
        case 2 => GateStep(u, before, host, BASH_HOOK);
        case 3 => ReviewStep(u, before, host);
        case 4 => SectionStep(u, before, host);
        case 5 => TranslationsStep(u, before, host);
        case 6 => ListStep(u, before, host, TRUSTED_EXECUTABLES);
        case 7 => ListStep(u, before, host, TRUSTED_URLS);
        case _ => LayoutStep(u, before, host);
      }
    }
  }

  lemma StagesAreTheCarry(u: Unicode, own: map<string, Json>, host: map<string, Json>)
    ensures Stage(u, own, host, 8) == Carried(u, own, host)
  {
    assert Stage(u, own, host, 0) == own;
    var one := Stage(u, own, host, 1);
    assert one == CarryGate(u, own, host, AGENT_ISOLATION);
    var two := Stage(u, own, host, 2);
    assert two == CarryGate(u, one, host, BASH_HOOK);
    var three := Stage(u, own, host, 3);
    assert three == CarryReview(u, two, host);
    var four := Stage(u, own, host, 4);
    assert four == CarrySection(u, three, host);
    var five := Stage(u, own, host, 5);
    assert five == CarryTranslations(u, four, host);
    var six := Stage(u, own, host, 6);
    assert six == CarryList(five, host, TRUSTED_EXECUTABLES);
    assert Stage(u, own, host, 7) == CarryList(six, host, TRUSTED_URLS);
  }

  /** After the whole carry a gate, or the review, reads as on exactly when one of the two configs has it on. */
  lemma CarryReadsAsEither(u: Unicode, own: map<string, Json>, host: map<string, Json>, what: string)
    requires FEATURES in own && (IsFailClosed(what) || what == SECURITY_REVIEW)
    ensures SafetyOn(u, Carried(u, own, host), what) <==> SafetyOn(u, host, what) || SafetyOn(u, own, what)
  {
    StageReads(u, own, host, 8, what);
    StagesAreTheCarry(u, own, host);
  }

  /** For every pair of files, missing, unreadable or wrongly typed ones included, a
      fail-closed gate or the review reads as on after the merge exactly when it does
      under the host's file or under the per-run file alone. */
  lemma MergeReadsAsEither(u: Unicode, own: File, host: File, what: string)
    requires !host.content.Missing? && (IsFailClosed(what) || what == SECURITY_REVIEW)
    ensures SafetyOn(u, Loaded(u, own, host, false), what)
            <==> SafetyOn(u, Merged(host), what) || SafetyOn(u, Merged(own), what)
  {
    var mine := Merged(own) - {PER_RUN_TRANSLATIONS};
    SameSafetyReadsAlike(u, Merged(own), mine);
    CarryReadsAsEither(u, mine, Merged(host), what);
  }

  /** A host setting that is on is on in the merged config, also when the per-run
      path names the host's own file. */
  lemma MergeNeverWeakens(u: Unicode, own: File, host: File, same: bool, what: string)
    requires !host.content.Missing? && (IsFailClosed(what) || what == SECURITY_REVIEW)
    requires same ==> own == host
    requires SafetyOn(u, Merged(host), what)
    ensures SafetyOn(u, Loaded(u, own, host, same), what)
  {
    if same {
      SameSafetyReadsAlike(u, Merged(own), Merged(own) - {PER_RUN_TRANSLATIONS});
    } else {
      MergeReadsAsEither(u, own, host, what);
    }
  }

  /** Once a carry step has put it on, no later step takes it off. */
  lemma LaterStepsKeepIt(u: Unicode, own: map<string, Json>, host: map<string, Json>, i: nat, j: nat, what: string)
    requires FEATURES in own && (IsFailClosed(what) || what == SECURITY_REVIEW) && i <= j
    requires SafetyOn(u, Stage(u, own, host, i), what)
    ensures SafetyOn(u, Stage(u, own, host, j), what)
  {
    StageReads(u, own, host, i, what);
    StageReads(u, own, host, j, what);
  }

  /** A file that cannot be used leaves no fail-closed gate off. */
  lemma UnusableFileClosesGates(u: Unicode, file: File, gate: string)
    requires IsFailClosed(gate)
    requires file.content.Unreadable? || (file.content.Parsed? && !file.content.json.JObj?)
    ensures On(u, Merged(file), gate)
  {
    var error := if file.content.Unreadable? then file.content.error else NOT_AN_OBJECT;
    assert Merged(file) == LoadFailed(file.path, error);
  }

  // -------------------------------------------------------------------------
  // The merge never re-points a path
  // -------------------------------------------------------------------------

  lemma GatesAndReviewTouch(u: Unicode, own: map<string, Json>, host: map<string, Json>, key: string)
    requires key != FEATURES && key != SECURITY_REVIEW
    ensures Get(CarryReview(u, CarriedGates(u, own, host), host), key) == Get(own, key)
  {
  }

  lemma SectionTouches(u: Unicode, own: map<string, Json>, host: map<string, Json>, key: string)
    requires key != AGENT_ISOLATION
    ensures Get(CarrySection(u, own, host), key) == Get(own, key)
  {
  }

  lemma TranslationsTouch(u: Unicode, own: map<string, Json>, host: map<string, Json>, key: string)
    requires key != TRANSLATIONS && key != PER_RUN_TRANSLATIONS
    ensures Get(CarryTranslations(u, own, host), key) == Get(own, key)
  {
  }

  lemma ListTouches(own: map<string, Json>, host: map<string, Json>, list: string, key: string)
    requires key != list
    ensures Get(CarryList(own, host, list), key) == Get(own, key)
  {
  }

  lemma ListsAndLayoutTouch(own: map<string, Json>, host: map<string, Json>, key: string)
    requires key != TRUSTED_EXECUTABLES && key != TRUSTED_URLS && key != SCAFFOLD_DIR
    ensures Get(CarryLayout(CarryList(CarryList(own, host, TRUSTED_EXECUTABLES), host, TRUSTED_URLS), host), key) == Get(own, key)
  {
    var one := CarryList(own, host, TRUSTED_EXECUTABLES);
    ListTouches(own, host, TRUSTED_EXECUTABLES, key);
    ListTouches(one, host, TRUSTED_URLS, key);
  }

  lemma TranslationsReadOnlyTheirKeys(u: Unicode, a: map<string, Json>, b: map<string, Json>, host: map<string, Json>)
    requires Get(a, TRANSLATIONS) == Get(b, TRANSLATIONS) && Get(a, PER_RUN_TRANSLATIONS) == Get(b, PER_RUN_TRANSLATIONS)
    ensures Get(CarryTranslations(u, a, host), TRANSLATIONS) == Get(CarryTranslations(u, b, host), TRANSLATIONS)
    ensures Get(CarryTranslations(u, a, host), PER_RUN_TRANSLATIONS) == Get(CarryTranslations(u, b, host), PER_RUN_TRANSLATIONS)
  {
    assert TRANSLATIONS in a <==> TRANSLATIONS in b;
  }

  lemma CarriedTranslations(u: Unicode, own: map<string, Json>, host: map<string, Json>)
    ensures var after, mine := Carried(u, own, host), CarryTranslations(u, own, host);
            && Get(after, TRANSLATIONS) == Get(mine, TRANSLATIONS)
            && Get(after, PER_RUN_TRANSLATIONS) == Get(mine, PER_RUN_TRANSLATIONS)
  {
    var review := CarryReview(u, CarriedGates(u, own, host), host);
    var section := CarrySection(u, review, host);
    GatesAndReviewTouch(u, own, host, TRANSLATIONS);
    GatesAndReviewTouch(u, own, host, PER_RUN_TRANSLATIONS);
    SectionTouches(u, review, host, TRANSLATIONS);
    SectionTouches(u, review, host, PER_RUN_TRANSLATIONS);
    TranslationsReadOnlyTheirKeys(u, section, own, host);
    ListsAndLayoutTouch(CarryTranslations(u, section, host), host, TRANSLATIONS);
    ListsAndLayoutTouch(CarryTranslations(u, section, host), host, PER_RUN_TRANSLATIONS);
  }

  /** Some usable entry of a config matches the path. */
  ghost predicate MapsPath(u: Unicode, entries: map<string, Json>, path: string) {
    exists a :: a in Usable(u, ListOf(Get(entries, TRANSLATIONS))) && Matches(a, path)
  }

  lemma CarryKeepsHostPaths(u: Unicode, own: map<string, Json>, host: map<string, Json>, path: string)
    requires FoldsPaths(u) && MapsPath(u, host, path)
    ensures Translate(u, Get(Carried(u, own, host), TRANSLATIONS), path) == Translate(u, Get(host, TRANSLATIONS), path)
  {
    CarriedTranslations(u, own, host);
    HostPathsKeepTheirTarget(u, ListOf(Get(host, TRANSLATIONS)), ListOf(Get(own, TRANSLATIONS)), path);
  }

  /** A path the host maps is translated under the merged config as under the host's. */
  lemma MergeKeepsHostPaths(u: Unicode, own: File, host: File, same: bool, path: string)
    requires FoldsPaths(u) && !host.content.Missing? && (same ==> own == host)
    ensures MapsPath(u, Merged(host), path) ==>
              Translate(u, Get(Loaded(u, own, host, same), TRANSLATIONS), path)
              == Translate(u, Get(Merged(host), TRANSLATIONS), path)
  {
    if !same && MapsPath(u, Merged(host), path) {
      CarryKeepsHostPaths(u, Merged(own) - {PER_RUN_TRANSLATIONS}, Merged(host), path);
    }
  }

  /** A config that records no additions of its own has, after the carry, the host's scaffold roots. */
  lemma CarryKeepsScaffoldRoots(u: Unicode, own: map<string, Json>, host: map<string, Json>)
    requires FoldsPaths(u) && PER_RUN_TRANSLATIONS !in own
    ensures var after := Carried(u, own, host);
            ScaffoldRoots(u, Get(after, TRANSLATIONS), Get(after, PER_RUN_TRANSLATIONS))
            == Targets(Configured(u, Get(host, TRANSLATIONS)))
  {
    CarriedTranslations(u, own, host);
    ScaffoldRootsAreTheHosts(u, ListOf(Get(host, TRANSLATIONS)), ListOf(Get(own, TRANSLATIONS)));
  }

  /** A scaffold is created only under the usable targets of the host's own list. */
  lemma MergeKeepsScaffoldRoots(u: Unicode, own: File, host: File, same: bool)
    requires FoldsPaths(u) && !host.content.Missing? && (same ==> own == host)
    ensures var after := Loaded(u, own, host, same);
            ScaffoldRoots(u, Get(after, TRANSLATIONS), Get(after, PER_RUN_TRANSLATIONS))
            == Targets(Configured(u, Get(Merged(host), TRANSLATIONS)))
  {
    if !same {
      CarryKeepsScaffoldRoots(u, Merged(own) - {PER_RUN_TRANSLATIONS}, Merged(host));
    }
  }

  // -------------------------------------------------------------------------
  // The trust lists
  // -------------------------------------------------------------------------

  lemma {:induction false} AppendedKeepsPrefix(list: seq<Json>, own: seq<Json>)
    ensures list <= Appended(list, own)
    decreases |own|
  {
    if own != [] {
      AppendedKeepsPrefix(if In(own[0], list) then list else list + [own[0]], own[1..]);
    }
  }

  /** Every entry after the first n is one of own that equals no entry before it. */
  ghost predicate NewFrom(r: seq<Json>, n: nat, own: seq<Json>) {
    forall i :: n <= i < |r| ==> r[i] in own && !In(r[i], r[..i])
  }

  lemma {:induction false} AppendedIsNew(list: seq<Json>, own: seq<Json>)
    ensures NewFrom(Appended(list, own), |list|, own)
    decreases |own|
  {
    if own != [] {
      var next := if In(own[0], list) then list else list + [own[0]];
      var r := Appended(list, own);
      AppendedIsNew(next, own[1..]);
      AppendedKeepsPrefix(next, own[1..]);
      assert r == Appended(next, own[1..]);
      forall i | |list| <= i < |r| ensures r[i] in own && !In(r[i], r[..i]) {
        if i < |next| {
          assert r[i] == own[0] && r[..i] == list;
        } else {
          assert r[i] in own[1..];
        }
      }
    }
  }

  lemma {:induction false} AppendedLosesNothing(list: seq<Json>, own: seq<Json>, e: Json)
    requires e in own
    ensures In(e, Appended(list, own))
    decreases |own|
  {
    var next := if In(own[0], list) then list else list + [own[0]];
    AppendedKeepsPrefix(next, own[1..]);
    if e == own[0] {
      PyEqReflexive(e);
      assert !In(e, list) ==> PyEq(e, next[|list|]);
    } else {
      AppendedLosesNothing(next, own[1..], e);
    }
  }

  /** The old entries first, then entries of the per-run file no earlier entry equals; none of its entries is lost. */
  lemma AppendedAddsOnly(list: seq<Json>, own: seq<Json>)
    ensures var r := Appended(list, own);
            list <= r && NewFrom(r, |list|, own) && forall e :: e in own ==> In(e, r)
  {
    AppendedKeepsPrefix(list, own);
    AppendedIsNew(list, own);
    forall e | e in own ensures In(e, Appended(list, own)) {
      AppendedLosesNothing(list, own, e);
    }
  }

  lemma CarriedList(u: Unicode, own: map<string, Json>, host: map<string, Json>, key: string)
    requires key == TRUSTED_EXECUTABLES || key == TRUSTED_URLS
    ensures Get(Carried(u, own, host), key) == Get(CarryList(own, host, key), key)
  {
    var review := CarryReview(u, CarriedGates(u, own, host), host);
    var section := CarrySection(u, review, host);
    var settings := CarryTranslations(u, section, host);
    GatesAndReviewTouch(u, own, host, key);
    SectionTouches(u, review, host, key);
    TranslationsTouch(u, section, host, key);
    var one := CarryList(settings, host, TRUSTED_EXECUTABLES);
    ListTouches(settings, host, TRUSTED_EXECUTABLES, TRUSTED_URLS);
    ListTouches(one, host, TRUSTED_URLS, TRUSTED_EXECUTABLES);
  }

  /** The host's trust list is a prefix of the carried one, and the per-run config only adds to it. */
  lemma CarryKeepsTrustLists(u: Unicode, own: map<string, Json>, host: map<string, Json>, key: string)
    requires key == TRUSTED_EXECUTABLES || key == TRUSTED_URLS
    requires ListOf(Get(host, key)) != []
    ensures var trusted, mine, after := ListOf(Get(host, key)), ListOf(Get(own, key)), ListOf(Get(Carried(u, own, host), key));
            trusted <= after && NewFrom(after, |trusted|, mine) && forall e :: e in mine ==> In(e, after)
  {
    CarriedList(u, own, host, key);
    AppendedAddsOnly(ListOf(Get(host, key)), ListOf(Get(own, key)));
  }

  /** With isolation on under the host, its settings are used unless the per-run config has some of its own. */
  lemma CarryKeepsIsolationSection(u: Unicode, own: map<string, Json>, host: map<string, Json>)
    ensures var mine, theirs := Get(own, AGENT_ISOLATION), Get(host, AGENT_ISOLATION);
            Get(Carried(u, own, host), AGENT_ISOLATION) ==
              if && On(u, host, AGENT_ISOLATION) && theirs.Some? && theirs.value.JObj? && theirs.value.fields != map[]
                 && (mine.Some? && mine.value.JObj? ==> mine.value.fields == map[])
              then theirs else mine
  {
    var review := CarryReview(u, CarriedGates(u, own, host), host);
    var section := CarrySection(u, review, host);
    GatesAndReviewTouch(u, own, host, AGENT_ISOLATION);
    TranslationsTouch(u, section, host, AGENT_ISOLATION);
    ListsAndLayoutTouch(CarryTranslations(u, section, host), host, AGENT_ISOLATION);
  }
}
