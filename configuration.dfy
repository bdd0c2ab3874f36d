/**
 * `src/config.py`: the application settings read from the environment and
 * from two YAML files (`agents.yaml`, `tasks.yaml`), the lookups of one
 * agent's or one task's section, the warnings of `_validate_config`, and
 * the `format_*_config` loops that substitute variables into the string
 * values of a section.
 *
 * Reading a file and parsing YAML are inputs: each file arrives as a
 * `YamlFile` saying whether it was missing, could not be read, or what it
 * held. `str.format(**kwargs)` is an oracle from a string to its formatted
 * text or the exception it raises; parsing the temperature with `float` is
 * an oracle saying whether the text is a number.
 */
module Configuration {
  import opened Errors

  /** A value in an agent's or a task's section: a string, or any other YAML value carried as is. */
  datatype Scalar = Str(text: string) | NonStr(other: string)

  /** One `key: value` line of a section, in file order. */
  datatype Field = Field(key: string, value: Scalar)

  /**
   * What a name maps to in a YAML document: a mapping of fields, or any
   * other YAML value (`None` for a bare `name:`, a scalar, a list), named
   * by its Python type.
   */
  datatype SectionValue = Mapping(fields: seq<Field>) | NotMapping(typeName: string)

  /** A YAML document: each agent or task name with its section. */
  type Document = map<string, SectionValue>

  /** What reading one configuration file gave. */
  datatype YamlFile =
    | Missing                        // the path does not exist
    | Unreadable(error: Exception)   // opening or parsing raised
    | Loaded(document: Document)     // parsed; an empty or null document is the empty map

  /**
   * `_load_yaml_config`: a missing or unreadable file, like an empty one,
   * gives the empty configuration instead of an error.
   */
  function LoadYamlConfig(file: YamlFile): (document: Document)
    ensures file.Loaded? ==> document == file.document
    ensures !file.Loaded? ==> document == map[]
  {
    match file
    case Missing => map[]
    case Unreadable(_) => map[]
    case Loaded(d) => d
  }

  const DefaultModel := "claude-3-5-sonnet-20240620"
  const DefaultTemperature := "0.2"

  /** `os.getenv(key)`: None when the variable is unset; a variable set to "" is "". */
  function Getenv(env: map<string, string>, key: string): Option<string>
  {
    if key in env then Some(env[key]) else None
  }

  /** `os.getenv(key, default)`: the default only when the variable is unset. */
  function GetenvOr(env: map<string, string>, key: string, default: string): (r: string)
    ensures key in env ==> r == env[key]
    ensures key !in env ==> r == default
  {
    if key in env then env[key] else default
  }

  /** Python truthiness of an optional string. */
  predicate Present(s: Option<string>)
  {
    s.Some? && s.value != ""
  }

  /**
   * The settings a `Config` holds once built. The temperature is the text
   * `float` accepted, carried without arithmetic.
   */
  datatype Config = Config(
    configDir: string, agentsConfig: Document, tasksConfig: Document,
    anthropicApiKey: Option<string>, model: string, temperature: string,
    githubToken: Option<string>, githubOwner: Option<string>, githubRepo: Option<string>)

  /** The `ValueError` `float` raises on a text that is not a number. */
  function FloatError(text: string): Exception
  {
    Exception("<class 'ValueError'>", "could not convert string to float: '" + text + "'")
  }

  /**
   * `Config.__init__`: both YAML files, then the environment. The only way
   * it fails is a temperature that is not a number; missing settings and
   * missing files never make it fail.
   */
  function NewConfig(
    configDir: string, env: map<string, string>, agentsFile: YamlFile, tasksFile: YamlFile,
    isFloat: string -> bool): (result: Outcome<Config>)
    ensures var temperature := GetenvOr(env, "TEMPERATURE", DefaultTemperature);
      && (result.Raised? <==> !isFloat(temperature))
      && (result.Raised? ==> result.exc == FloatError(temperature))
    ensures result.Returned? ==>
      && result.value.agentsConfig == LoadYamlConfig(agentsFile)
      && result.value.tasksConfig == LoadYamlConfig(tasksFile)
      && result.value.anthropicApiKey == Getenv(env, "ANTHROPIC_API_KEY")
      && result.value.model == GetenvOr(env, "ANTHROPIC_MODEL", DefaultModel)
      && result.value.githubToken == Getenv(env, "GITHUB_ACCESS_TOKEN")
      && result.value.githubOwner == Getenv(env, "GITHUB_OWNER")
      && result.value.githubRepo == Getenv(env, "GITHUB_REPO")
      && result.value.temperature == GetenvOr(env, "TEMPERATURE", DefaultTemperature)
      && result.value.configDir == configDir
  {
    var temperature := GetenvOr(env, "TEMPERATURE", DefaultTemperature);
    if !isFloat(temperature) then Raised(FloatError(temperature))
    else
      Returned(Config(configDir, LoadYamlConfig(agentsFile), LoadYamlConfig(tasksFile),
        Getenv(env, "ANTHROPIC_API_KEY"), GetenvOr(env, "ANTHROPIC_MODEL", DefaultModel), temperature,
        Getenv(env, "GITHUB_ACCESS_TOKEN"), Getenv(env, "GITHUB_OWNER"), Getenv(env, "GITHUB_REPO")))
  }

  const ApiKeyWarning := "ANTHROPIC_API_KEY not set in environment " +
    "variables. LLM functionality will not work."
  const GitHubWarning := "GITHUB_ACCESS_TOKEN not set. " + "GitHub integration will not work."
  const AgentsWarning := "Agents configuration not loaded. " + "Check agents.yaml file."
  const TasksWarning := "Tasks configuration not loaded. " + "Check tasks.yaml file."

  /** The checks of `_validate_config`, in order: each failing one only logs a warning. */
  function Warnings(c: Config): seq<string>
  {
    (if Present(c.anthropicApiKey) then [] else [ApiKeyWarning]) +
    (if Present(c.githubToken) then [] else [GitHubWarning]) +
    (if c.agentsConfig != map[] then [] else [AgentsWarning]) +
    (if c.tasksConfig != map[] then [] else [TasksWarning])
  }

  /**
   * Each warning is logged exactly when its setting is missing, and a
   * complete configuration logs none.
   */
  lemma WarningsExact(c: Config)
    ensures ApiKeyWarning in Warnings(c) <==> !Present(c.anthropicApiKey)
    ensures GitHubWarning in Warnings(c) <==> !Present(c.githubToken)
    ensures AgentsWarning in Warnings(c) <==> c.agentsConfig == map[]
    ensures TasksWarning in Warnings(c) <==> c.tasksConfig == map[]
    ensures |Warnings(c)| <= 4
  {
    var w := Warnings(c);
    var a := if Present(c.anthropicApiKey) then [] else [ApiKeyWarning];
    var g := if Present(c.githubToken) then [] else [GitHubWarning];
    var s := if c.agentsConfig != map[] then [] else [AgentsWarning];
    var t := if c.tasksConfig != map[] then [] else [TasksWarning];
    assert w == a + g + s + t;
    assert ApiKeyWarning != GitHubWarning && ApiKeyWarning != AgentsWarning && ApiKeyWarning != TasksWarning;
    assert GitHubWarning != AgentsWarning && GitHubWarning != TasksWarning && AgentsWarning != TasksWarning;
    assert forall x :: x in w <==> x in a || x in g || x in s || x in t;
  }

  /**
   * `.get(name, {})`: the named value as it was parsed, even when it is not
   * a mapping, or an empty mapping for an unknown name.
   */
  function Section(document: Document, name: string): (section: SectionValue)
    ensures name !in document ==> section == Mapping([])
    ensures name in document ==> section == document[name]
  {
    if name in document then document[name] else Mapping([])
  }

  /** `get_agent_config`. */
  function GetAgentConfig(c: Config, name: string): SectionValue
  {
    Section(c.agentsConfig, name)
  }

  /** `get_task_config`. */
  function GetTaskConfig(c: Config, name: string): SectionValue
  {
    Section(c.tasksConfig, name)
  }

  /** The `AttributeError` that `config.items()` raises on a value that is not a mapping. */
  function ItemsError(typeName: string): Exception
  {
    Exception("<class 'AttributeError'>", "'" + typeName + "' object has no attribute 'items'")
  }

  /**
   * `format_*_config` on a looked-up value: a mapping is formatted field by
   * field; any other value fails at `config.items()`.
   */
  function FormattedValue(section: SectionValue, format: string -> Outcome<string>): Outcome<seq<Field>>
  {
    match section
    case Mapping(fields) => Formatted(fields, format)
    case NotMapping(typeName) => Raised(ItemsError(typeName))
  }

  /** The keys of a section, in order. */
  function Keys(section: seq<Field>): seq<string>
  {
    if section == [] then [] else Keys(section[..|section| - 1]) + [section[|section| - 1].key]
  }

  /** One field after formatting: a string value is formatted, any other is copied. */
  function FormatField(field: Field, format: string -> Outcome<string>): Outcome<Field>
  {
    match field.value
    case NonStr(_) => Returned(field)
    case Str(text) =>
      match format(text)
      case Returned(t) => Returned(Field(field.key, Str(t)))
      case Raised(e) => Raised(e)
  }

  /**
   * The loop of `format_*_config` over a section: a fresh section with the
   * same keys in the same order, or the exception of the first string value
   * that does not format.
   */
  function Formatted(section: seq<Field>, format: string -> Outcome<string>): Outcome<seq<Field>>
  {
    if section == [] then Returned([])
    else
      match Formatted(section[..|section| - 1], format)
      case Raised(e) => Raised(e)
      case Returned(done) =>
        match FormatField(section[|section| - 1], format)
        case Raised(e) => Raised(e)
        case Returned(f) => Returned(done + [f])
  }

  /** A string value that `format` accepts. */
  predicate Formats(field: Field, format: string -> Outcome<string>)
  {
    field.value.Str? ==> format(field.value.text).Returned?
  }

  /** The loop runs to its end exactly when every string value formats. */
  lemma {:induction false} FormattedSucceeds(section: seq<Field>, format: string -> Outcome<string>)
    ensures Formatted(section, format).Returned? <==> forall i :: 0 <= i < |section| ==> Formats(section[i], format)
  {
    if section != [] {
      var prefix := section[..|section| - 1];
      FormattedSucceeds(prefix, format);
      assert forall i :: 0 <= i < |prefix| ==> section[i] == prefix[i];
    }
  }

  /**
   * A completed loop yields the keys of the section in the same order, with
   * non-string values copied and string values replaced by their format.
   */
  lemma {:induction false} FormattedShape(section: seq<Field>, format: string -> Outcome<string>)
    requires Formatted(section, format).Returned?
    ensures var r := Formatted(section, format).value;
      && |r| == |section|
      && Keys(r) == Keys(section)
      && forall i :: 0 <= i < |section| ==>
           && r[i].key == section[i].key
           && (section[i].value.NonStr? ==> r[i] == section[i])
           && (section[i].value.Str? ==>
                 format(section[i].value.text).Returned? && r[i].value == Str(format(section[i].value.text).value))
  {
    if section != [] {
      var prefix := section[..|section| - 1];
      var last := section[|section| - 1];
      FormattedShape(prefix, format);
      var done := Formatted(prefix, format).value;
      var field := FormatField(last, format).value;
      var r := Formatted(section, format).value;
      assert r == done + [field];
      assert r[..|r| - 1] == done;
      forall i | 0 <= i < |section|
        ensures r[i].key == section[i].key
        ensures section[i].value.NonStr? ==> r[i] == section[i]
        ensures section[i].value.Str? ==>
          format(section[i].value.text).Returned? && r[i].value == Str(format(section[i].value.text).value)
      {
        if i < |prefix| {
          assert section[i] == prefix[i] && r[i] == done[i];
        } else {
          assert section[i] == last && r[i] == field;
        }
      }
    }
  }

  /**
   * On success the result has exactly the keys of the section in the same
   * order; non-string values are copied unchanged and each string value is
   * replaced by its formatted text. Success happens exactly when every
   * string value formats.
   */
  lemma FormattedSpec(section: seq<Field>, format: string -> Outcome<string>)
    ensures Formatted(section, format).Returned? <==> forall i :: 0 <= i < |section| ==> Formats(section[i], format)
    ensures Formatted(section, format).Returned? ==>
      var r := Formatted(section, format).value;
      && |r| == |section|
      && Keys(r) == Keys(section)
      && forall i :: 0 <= i < |section| ==>
           && r[i].key == section[i].key
           && (section[i].value.NonStr? ==> r[i] == section[i])
           && (section[i].value.Str? ==> r[i].value == Str(format(section[i].value.text).value))
  {
    FormattedSucceeds(section, format);
    if Formatted(section, format).Returned? {
      FormattedShape(section, format);
    }
  }

  /**
   * On failure the exception is that of the first string value in the
   * section that does not format.
   */
  lemma {:induction false} FormattedFailure(section: seq<Field>, format: string -> Outcome<string>)
    requires Formatted(section, format).Raised?
    ensures exists i ::
      && 0 <= i < |section| && section[i].value.Str?
      && format(section[i].value.text) == Raised(Formatted(section, format).exc)
      && (forall j :: 0 <= j < i ==> Formats(section[j], format))
  {
    var prefix := section[..|section| - 1];
    var last := section[|section| - 1];
    if Formatted(prefix, format).Raised? {
      FormattedFailure(prefix, format);
      var i :| 0 <= i < |prefix| && prefix[i].value.Str? &&
        format(prefix[i].value.text) == Raised(Formatted(prefix, format).exc) &&
        (forall j :: 0 <= j < i ==> Formats(prefix[j], format));
      assert section[i] == prefix[i];
      assert forall j :: 0 <= j < i ==> section[j] == prefix[j];
    } else {
      FormattedSpec(prefix, format);
      assert forall j :: 0 <= j < |prefix| ==> section[j] == prefix[j];
      var i := |section| - 1;
      assert section[i].value.Str? && format(section[i].value.text) == Raised(Formatted(section, format).exc);
    }
  }

  /**
   * The loop itself: fills a fresh list field by field and stops at the
   * first string value whose formatting raises.
   */
  method FormatSection(section: seq<Field>, format: string -> Outcome<string>) returns (result: Outcome<seq<Field>>)
    ensures result == Formatted(section, format)
  {
    var formatted: seq<Field> := [];
    for k := 0 to |section|
      invariant Formatted(section[..k], format) == Returned(formatted)
    {
      assert section[..k + 1][..k] == section[..k];
      var field := section[k];
      if field.value.Str? {
        var text := format(field.value.text);
        if text.Raised? {
          assert section[..k + 1][k] == field;
          RaisedStays(section, k + 1, format);
          return Raised(text.exc);
        }
        formatted := formatted + [Field(field.key, Str(text.value))];
      } else {
        formatted := formatted + [field];
      }
      assert section[..k + 1][k] == field;
    }
    assert section[..|section|] == section;
    result := Returned(formatted);
  }

  /** Once a prefix of a section fails to format, the whole section fails with the same exception. */
  lemma {:induction false} RaisedStays(section: seq<Field>, k: nat, format: string -> Outcome<string>)
    requires k <= |section| && Formatted(section[..k], format).Raised?
    ensures Formatted(section, format) == Formatted(section[..k], format)
    decreases |section| - k
  {
    if k < |section| {
      assert section[..k + 1][..k] == section[..k];
      RaisedStays(section, k + 1, format);
    } else {
      assert section[..k] == section;
    }
  }

  /** `format_agent_config`: formats the agent's section; an unknown agent gives an empty one. */
  method FormatAgentConfig(c: Config, name: string, format: string -> Outcome<string>)
    returns (result: Outcome<seq<Field>>)
    ensures result == FormattedValue(GetAgentConfig(c, name), format)
  {
    var section := GetAgentConfig(c, name);
    if section.NotMapping? {
      return Raised(ItemsError(section.typeName));
    }
    result := FormatSection(section.fields, format);
  }

  /** `format_task_config`: formats the task's section; an unknown task gives an empty one. */
  method FormatTaskConfig(c: Config, name: string, format: string -> Outcome<string>)
    returns (result: Outcome<seq<Field>>)
    ensures result == FormattedValue(GetTaskConfig(c, name), format)
  {
    var section := GetTaskConfig(c, name);
    if section.NotMapping? {
      return Raised(ItemsError(section.typeName));
    }
    result := FormatSection(section.fields, format);
  }

  /** Formatting an unknown agent gives the empty section, whatever `format` does. */
  lemma FormatUnknownIsEmpty(c: Config, name: string, format: string -> Outcome<string>)
    requires name !in c.agentsConfig
    ensures FormattedValue(GetAgentConfig(c, name), format) == Returned([])
  {
  }

  /** Formatting an unknown task gives the empty section, whatever `format` does. */
  lemma FormatUnknownTaskIsEmpty(c: Config, name: string, format: string -> Outcome<string>)
    requires name !in c.tasksConfig
    ensures FormattedValue(GetTaskConfig(c, name), format) == Returned([])
  {
  }

  /**
   * Formatting a looked-up value completes exactly when it is a mapping
   * whose string values all format; a value that is not a mapping raises
   * the `AttributeError` of `items()`, whatever `format` does.
   */
  lemma FormattedValueSucceeds(section: SectionValue, format: string -> Outcome<string>)
    ensures FormattedValue(section, format).Returned? <==>
      section.Mapping? && forall i :: 0 <= i < |section.fields| ==> Formats(section.fields[i], format)
    ensures section.NotMapping? ==> FormattedValue(section, format) == Raised(ItemsError(section.typeName))
  {
    if section.Mapping? {
      FormattedSucceeds(section.fields, format);
    }
  }
}
