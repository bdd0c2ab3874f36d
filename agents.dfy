/**
 * The agents of src/agents/: the attribute store of `BaseAgent`, the
 * construction of its framework binding (`_create_agent`) with its failure
 * path, `update_config`, `__str__`, and the four specialised agents
 * (analyst, architect, developer, reviewer) with their role and backstory
 * templates, `update_language` and placeholder answers.
 *
 * The framework's `Agent(...)` constructor is an oracle `factory` that, given
 * what it is passed, either accepts it or raises an exception.
 */
module Agents {
  import opened Text
  import opened Errors

  /** Which subclass an agent is; a plain `BaseAgent` has none. */
  datatype Specialty = Analyst | Architect | Developer | Reviewer

  /**
   * The tools an agent can be given: the framework's web search and file
   * reader, a `GitHubTool` with its token, owner and repository, and a
   * `CodeAnalysisTool` with its language.
   */
  datatype Tool =
    | WebSearch
    | FileRead
    | GitHub(token: Option<string>, owner: Option<string>, repo: Option<string>)
    | CodeAnalysis(language: string)

  /** A `SqliteCache`, known by its database path. */
  datatype Cache = SqliteCache(path: string)

  /** The temperature float, carried without arithmetic. */
  datatype Temperature = Temperature(literal: string)

  /** The values an agent attribute can hold. */
  datatype Value =
    | Text(text: string)
    | Flag(flag: bool)
    | Number(number: int)
    | Temp(temperature: Temperature)
    | NoneValue
    | Tools(tools: seq<Tool>)
    | CacheValue(cache: Cache)

  /**
   * Python truthiness, which the model applies only to `api_key`. A
   * temperature is carried as its text, so a zero temperature, which
   * Python takes as false, is not told apart here.
   */
  predicate Truthy(v: Value)
  {
    match v
    case Text(s) => s != ""
    case Flag(b) => b
    case Number(n) => n != 0
    case Temp(_) => true
    case NoneValue => false
    case Tools(ts) => ts != []
    case CacheValue(_) => true
  }

  /** `str(value)` inside an f-string, for the values `__str__` and the error record quote. */
  function ValueStr(v: Value): string
  {
    match v
    case Text(s) => s
    case Flag(b) => if b then "True" else "False"
    case Number(n) => if n < 0 then "-" + NatToString(-n) else NatToString(n)
    case Temp(t) => t.literal
    case NoneValue => "None"
    case Tools(_) => "[...]"
    case CacheValue(_) => "<SqliteCache>"
  }

  const DefaultMaxIterations := 5
  const AgentCachePath := "agent_cache.db"

  /** `_default_tools`: the same two tools for every kind of agent. */
  function DefaultTools(): seq<Tool>
  {
    [WebSearch, FileRead]
  }

  // ---------------------------------------------------------------------
  // The attribute store
  // ---------------------------------------------------------------------

  /** The attributes `BaseAgent.__init__` assigns before building the binding. */
  const BaseKeys: set<string> := {"role", "goal", "backstory", "verbose", "allow_delegation", "temperature",
    "api_key", "model", "max_iterations", "max_rpm", "tools", "cache"}

  /** `getattr(self, key)`, with None for an attribute the agent does not have. */
  function Get(attributes: map<string, Value>, key: string): Value
  {
    if key in attributes then attributes[key] else NoneValue
  }

  /** `tools or self._default_tools()`. */
  function ToolsOrDefault(tools: Option<seq<Tool>>): (r: seq<Tool>)
    ensures r == (if tools.Some? && tools.value != [] then tools.value else DefaultTools())
    ensures r != []
  {
    if tools.Some? && tools.value != [] then tools.value else DefaultTools()
  }

  /** `cache or SqliteCache(path="agent_cache.db")`. */
  function CacheOrDefault(cache: Option<Cache>): Cache
  {
    if cache.Some? then cache.value else SqliteCache(AgentCachePath)
  }

  /** The attributes after `BaseAgent.__init__`'s assignments. */
  function InitialAttributes(
    role: string, goal: string, backstory: string, verbose: bool, allowDelegation: bool,
    temperature: Temperature, apiKey: Option<string>, model: string, tools: Option<seq<Tool>>,
    cache: Option<Cache>, maxIterations: int, maxRpm: Option<int>): (attributes: map<string, Value>)
    ensures attributes.Keys == BaseKeys
    ensures attributes["role"] == Text(role) && attributes["goal"] == Text(goal) && attributes["backstory"] == Text(backstory)
    ensures attributes["tools"] == Tools(ToolsOrDefault(tools)) && attributes["cache"] == CacheValue(CacheOrDefault(cache))
  {
    map[
      "role" := Text(role), "goal" := Text(goal), "backstory" := Text(backstory),
      "verbose" := Flag(verbose), "allow_delegation" := Flag(allowDelegation), "temperature" := Temp(temperature),
      "api_key" := (if apiKey.Some? then Text(apiKey.value) else NoneValue), "model" := Text(model),
      "max_iterations" := Number(maxIterations), "max_rpm" := (if maxRpm.Some? then Number(maxRpm.value) else NoneValue),
      "tools" := Tools(ToolsOrDefault(tools)), "cache" := CacheValue(CacheOrDefault(cache))]
  }

  /** One keyword argument of `update_config`. */
  datatype Setting = Setting(key: string, value: Value)

  /** The `setattr` loop of `update_config`: a key the agent has is overwritten, any other is ignored. */
  function Assign(attributes: map<string, Value>, settings: seq<Setting>): map<string, Value>
  {
    if settings == [] then attributes
    else
      var before := Assign(attributes, settings[..|settings| - 1]);
      var s := settings[|settings| - 1];
      if s.key in before then before[s.key := s.value] else before
  }

  /** The value the last setting for `key` gives it, if any setting names it. */
  function LastSetting(settings: seq<Setting>, key: string): Option<Value>
  {
    if settings == [] then None
    else if settings[|settings| - 1].key == key then Some(settings[|settings| - 1].value)
    else LastSetting(settings[..|settings| - 1], key)
  }

  /**
   * The loop adds and removes no attribute; an attribute takes the value of
   * the last setting that names it, and keeps its value when none does.
   */
  lemma {:induction false} AssignSpec(attributes: map<string, Value>, settings: seq<Setting>)
    ensures Assign(attributes, settings).Keys == attributes.Keys
    ensures forall key :: key in attributes ==>
      Assign(attributes, settings)[key] ==
        (if LastSetting(settings, key).Some? then LastSetting(settings, key).value else attributes[key])
  {
    if settings != [] {
      AssignSpec(attributes, settings[..|settings| - 1]);
    }
  }

  /** Unknown keys are silently ignored: settings that name no attribute change nothing. */
  lemma {:induction false} AssignIgnoresUnknown(attributes: map<string, Value>, settings: seq<Setting>)
    requires forall k :: 0 <= k < |settings| ==> settings[k].key !in attributes
    ensures Assign(attributes, settings) == attributes
  {
    if settings != [] {
      AssignIgnoresUnknown(attributes, settings[..|settings| - 1]);
    }
  }

  // ---------------------------------------------------------------------
  // The framework binding
  // ---------------------------------------------------------------------

  /**
   * What `_create_agent` passes to the framework's `Agent(...)`: the profile
   * attributes, the provider client (made from the key when the key is
   * truthy), the model, the cache and `max_iterations`. `max_rpm` is not
   * passed.
   */
  datatype Binding = Binding(
    role: Value, goal: Value, backstory: Value, verbose: Value, allowDelegation: Value,
    temperature: Value, tools: Value, provider: Option<Value>, model: Value, cache: Value,
    maxIterations: Value)

  function BindingOf(attributes: map<string, Value>): (b: Binding)
    ensures b.provider.None? <==> !Truthy(Get(attributes, "api_key"))
    ensures b.role == Get(attributes, "role") && b.goal == Get(attributes, "goal") && b.backstory == Get(attributes, "backstory")
  {
    var key := Get(attributes, "api_key");
    Binding(Get(attributes, "role"), Get(attributes, "goal"), Get(attributes, "backstory"),
      Get(attributes, "verbose"), Get(attributes, "allow_delegation"), Get(attributes, "temperature"),
      Get(attributes, "tools"), if Truthy(key) then Some(key) else None,
      Get(attributes, "model"), Get(attributes, "cache"), Get(attributes, "max_iterations"))
  }

  /** `max_rpm` and any attribute outside the binding do not influence it. */
  lemma BindingIgnoresRpm(attributes: map<string, Value>, v: Value)
    ensures BindingOf(attributes["max_rpm" := v]) == BindingOf(attributes)
    ensures BindingOf(attributes["language" := v]) == BindingOf(attributes)
  {
    assert forall k :: k != "max_rpm" ==> Get(attributes["max_rpm" := v], k) == Get(attributes, k);
    assert forall k :: k != "language" ==> Get(attributes["language" := v], k) == Get(attributes, k);
  }

  /** The CREWAI record `_create_agent` adds before re-raising a construction failure. */
  function CreationFailureRecord(attributes: map<string, Value>, e: Exception, now: string): AppError
  {
    var role := ValueStr(Get(attributes, "role"));
    NewAppError("Failed to create agent with role '" + role + "'", CrewAi, Error,
      Some(map["role" := role, "model" := ValueStr(Get(attributes, "model"))]), Some(e), None, now)
  }

  /** The records a failing `_create_agent` leaves: its own, then its wrapper's. */
  function BuildFailureRecords(attributes: map<string, Value>, e: Exception, now: string): seq<AppError>
  {
    [CreationFailureRecord(attributes, e, now), GuardRecord(e, now)]
  }

  /** A construction failure is recorded twice: once as a CREWAI error, then as the wrapper's classified ERROR. */
  lemma BuildFailureRecordsFacts(attributes: map<string, Value>, e: Exception, now: string)
    ensures |BuildFailureRecords(attributes, e, now)| == 2
    ensures BuildFailureRecords(attributes, e, now)[0].category == CrewAi
    ensures BuildFailureRecords(attributes, e, now)[1].category == Classify(e)
    ensures forall k :: 0 <= k < 2 ==>
      BuildFailureRecords(attributes, e, now)[k].severity == Error &&
      BuildFailureRecords(attributes, e, now)[k].traceback == Some(e)
  {
  }

  // ---------------------------------------------------------------------
  // The specialised agents' templates
  // ---------------------------------------------------------------------

  /**
   * What a specialised agent class fixes: its name, the text its role puts
   * before the language, its goal, and the three pieces of its backstory
   * around the two mentions of the language.
   */
  datatype Template = Template(
    className: string, rolePrefix: string, goal: string, opening: string, middle: string, closing: string)

  /** The templates of `AnalystAgent`, `ArchitectAgent`, `DeveloperAgent` and `ReviewerAgent`. */
  function TemplateOf(specialty: Specialty): Template
  {
    Template(ClassOf(specialty), RolePrefix(specialty), Goal(specialty),
      Opening(specialty), Middle(specialty), Closing(specialty))
  }

  /** `__class__.__name__` of each specialised class. */
  function ClassOf(specialty: Specialty): string
  {
    match specialty
    case Analyst => "AnalystAgent"
    case Architect => "ArchitectAgent"
    case Developer => "DeveloperAgent"
    case Reviewer => "ReviewerAgent"
  }

  /** The text each class puts before the language in its role. */
  function RolePrefix(specialty: Specialty): string
  {
    match specialty
    case Analyst =>
      "Analyste des besoins techniques et fonctionnels " +
      "spécialisé en "
    case Architect => "Architecte Logiciel Sénior spécialisé en "
    case Developer => "Développeur Sénior spécialisé en "
    case Reviewer => "Expert en revue de code "
  }

  /** The fixed goal of each class. */
  function Goal(specialty: Specialty): string
  {
    match specialty
    case Analyst =>
      "Comprendre et formaliser les besoins du projet " +
      "en spécifications exploitables"
    case Architect =>
      "Concevoir une architecture logicielle robuste, " +
      "extensible et maintenable"
    case Developer =>
      "Transformer les spécifications en code de haute " +
      "qualité suivant les meilleures pratiques"
    case Reviewer =>
      "Identifier les problèmes potentiels, les " +
      "failles de sécurité et les optimisations " +
      "possibles"
  }

  /** The backstory text before the first mention of the language. */
  function Opening(specialty: Specialty): string
  {
    match specialty
    case Analyst =>
      "Tu excelles dans la traduction de demandes " +
      "vagues en spécifications claires et structurées " +
      "pour des projets "
    case Architect =>
      "Tu es un architecte logiciel expérimenté avec " +
      "15 ans d'expérience en conception de systèmes " +
      "complexes en "
    case Developer =>
      "Tu es un développeur méticuleux qui produit un " +
      "code "
    case Reviewer =>
      "Tu as développé un œil critique pour détecter " +
      "les bugs subtils, les problèmes de performance " +
      "et les failles de sécurité dans le code "
  }

  /** The backstory text between the two mentions of the language. */
  function Middle(specialty: Specialty): string
  {
    match specialty
    case Analyst =>
      ". Tu sais poser les bonnes questions pour " +
      "clarifier les ambiguïtés et anticiper les " +
      "besoins non exprimés. Ton expérience te permet " +
      "de décomposer des problèmes complexes en " +
      "composants gérables et de prioriser " +
      "efficacement les fonctionnalités. Tu as un " +
      "talent particulier pour trouver un équilibre " +
      "entre les besoins des utilisateurs, les " +
      "contraintes techniques et les objectifs " +
      "commerciaux. Tu comprends parfaitement les " +
      "bonnes pratiques et patterns de conception en "
    case Architect =>
      ". Tu excelles dans la création d'architectures " +
      "qui anticipent les besoins futurs tout en " +
      "restant pragmatiques. Tu maîtrises les design " +
      "patterns et les principes de conception comme " +
      "SOLID, et tu sais quand les appliquer de " +
      "manière judicieuse sans surcompliquer les " +
      "choses. Tu as une expertise approfondie des " +
      "frameworks et bibliothèques standards en "
    case Developer =>
      " propre, bien documenté et testé. Tu maîtrises " +
      "les design patterns et les principes SOLID. Ton " +
      "code est toujours accompagné de tests unitaires " +
      "complets et d'une documentation claire. Tu " +
      "excelles dans l'implémentation de " +
      "fonctionnalités complexes de manière élégante " +
      "et performante. Tu es également très attentif à " +
      "la qualité du code, à sa lisibilité et à sa " +
      "maintenabilité à long terme. Tu as une " +
      "connaissance approfondie de l'écosystème "
    case Reviewer =>
      ". Tu proposes toujours des améliorations " +
      "constructives. Tu as une expérience approfondie " +
      "dans la détection de problèmes qui échappent " +
      "souvent aux autres développeurs. Tu comprends " +
      "parfaitement les bonnes pratiques et les pièges " +
      "courants spécifiques à "
  }

  /** The backstory text after the second mention of the language. */
  function Closing(specialty: Specialty): string
  {
    match specialty
    case Analyst => "."
    case Architect =>
      ", et tu sais quand utiliser chacun en fonction " +
      "du contexte. Ton expertise technique te permet " +
      "de prévoir les défis d'intégration, de " +
      "performance et de sécurité dès la phase de " +
      "conception."
    case Developer =>
      ", des frameworks populaires et des meilleures " +
      "pratiques actuelles."
    case Reviewer =>
      " et ses frameworks. Ton approche est toujours " +
      "constructive, en expliquant non seulement ce " +
      "qui pourrait être amélioré, mais aussi pourquoi " +
      "et comment. Tu es particulièrement attentif aux " +
      "aspects tels que la sécurité, la performance, " +
      "la lisibilité et la maintenabilité du code."
  }

  /** The role a template builds from a language. */
  function Role(template: Template, language: string): string
  {
    template.rolePrefix + language
  }

  /** The backstory a template builds from a language. */
  function Backstory(template: Template, language: string): string
  {
    template.opening + language + template.middle + language + template.closing
  }

  /** The role ends with the language, which it determines: two languages never share a role. */
  lemma RoleNamesLanguage(template: Template, a: string, b: string)
    ensures IsPrefix(template.rolePrefix, Role(template, a))
    ensures Role(template, a)[|template.rolePrefix|..] == a
    ensures Role(template, a) == Role(template, b) <==> a == b
  {
    var p := template.rolePrefix;
    assert (p + a)[..|p|] == p;
    assert (p + a)[|p|..] == a;
    assert (p + b)[|p|..] == b;
  }

  /** The backstory mentions the language. */
  lemma BackstoryMentionsLanguage(template: Template, language: string)
    ensures Contains(Backstory(template, language), language)
  {
    var opening, middle, closing := template.opening, template.middle, template.closing;
    ContainsSelf(language);
    ContainsRight(opening, language, language);
    ContainsLeft(opening + language, middle, language);
    ContainsLeft(opening + language + middle, language, language);
    ContainsLeft(opening + language + middle + language, closing, language);
  }

  /** The settings `update_language` passes to `update_config`: the role, then the backstory. */
  function LanguageSettings(template: Template, language: string): seq<Setting>
  {
    [Setting("role", Text(Role(template, language))), Setting("backstory", Text(Backstory(template, language)))]
  }

  /** `self.__class__.__name__`. */
  function ClassName(template: Option<Template>): string
  {
    match template
    case None => "BaseAgent"
    case Some(t) => t.className
  }

  /** `__str__`: `ClassName(role='<role>')`. */
  function AgentStr(template: Option<Template>, attributes: map<string, Value>): (s: string)
    ensures IsPrefix(ClassName(template) + "(role='", s)
    ensures Contains(s, ValueStr(Get(attributes, "role")))
  {
    var head := ClassName(template) + "(role='";
    var role := ValueStr(Get(attributes, "role"));
    assert (head + role + "')")[..|head|] == head;
    ContainsSelf(role);
    ContainsRight(head, role, role);
    ContainsLeft(head + role, "')", role);
    head + role + "')"
  }

  // ---------------------------------------------------------------------
  // The placeholder answers of the specialised agents
  // ---------------------------------------------------------------------

  /** `ArchitectAgent.create_architecture_diagram`: a constant, whatever the specifications. */
  function ArchitectureDiagram(specifications: string): (r: string)
  {
    "Architecture diagram would be generated here"
  }

  lemma ArchitectureDiagramConstant(a: string, b: string)
    ensures ArchitectureDiagram(a) == ArchitectureDiagram(b) == "Architecture diagram would be generated here"
  {
  }

  /** A fixed sentence around the current language. */
  function Around(before: string, language: string, after: string): (r: string)
    ensures IsPrefix(before, r) && Contains(r, language)
  {
    assert (before + language + after)[..|before|] == before;
    ContainsMiddle(before, language, after);
    before + language + after
  }

  /** `DeveloperAgent.generate_code`. */
  function GeneratedCode(language: string): (r: string)
    ensures Contains(r, language)
  {
    Around("Generated ", language, " code would be here")
  }

  /** `DeveloperAgent.generate_unit_tests`. */
  function GeneratedUnitTests(language: string): (r: string)
    ensures Contains(r, language)
  {
    Around("Generated ", language, " unit tests would be here")
  }

  /** `DeveloperAgent.fix_code_issues`. */
  function FixedCode(language: string): (r: string)
    ensures Contains(r, language)
  {
    Around("Fixed ", language, " code would be here")
  }

  datatype ReviewIssue = ReviewIssue(severity: string, description: string, line: nat)
  datatype Suggestion = Suggestion(description: string, code: string)
  datatype Review = Review(issues: seq<ReviewIssue>, suggestions: seq<Suggestion>, overallAssessment: string)

  /** `ReviewerAgent.review_code`: two example issues, two suggestions, an assessment naming the language. */
  function ReviewCode(language: string): (r: Review)
    ensures |r.issues| == 2 && |r.suggestions| == 2
    ensures r.issues[0].severity == "high" && r.issues[0].line == 10
    ensures r.issues[1].severity == "medium" && r.issues[1].line == 25
    ensures Contains(r.overallAssessment, language)
  {
    Review(
      [ReviewIssue("high", "Example issue 1", 10), ReviewIssue("medium", "Example issue 2", 25)],
      [Suggestion("Example suggestion 1", "Suggested code 1"), Suggestion("Example suggestion 2", "Suggested code 2")],
      Around("This is a placeholder review for ", language, " code."))
  }

  datatype Finding = Finding(severity: string, kind: string, description: string, location: string, remedy: string)

  /** `ReviewerAgent.analyze_security`: a critical then a high example. */
  function SecurityFindings(): (r: seq<Finding>)
    ensures |r| == 2 && r[0].severity == "critical" && r[1].severity == "high"
  {
    [ Finding("critical", "Example vulnerability type 1", "Example vulnerability description 1", "line 15", "Example mitigation 1"),
      Finding("high", "Example vulnerability type 2", "Example vulnerability description 2", "line 30", "Example mitigation 2") ]
  }

  /** `ReviewerAgent.analyze_performance`: a medium then a low example. */
  function PerformanceFindings(): (r: seq<Finding>)
    ensures |r| == 2 && r[0].severity == "medium" && r[1].severity == "low"
  {
    [ Finding("medium", "Example performance issue type 1", "Example performance issue description 1", "line 20", "Example suggestion 1"),
      Finding("low", "Example performance issue type 2", "Example performance issue description 2", "line 40", "Example suggestion 2") ]
  }

  // ---------------------------------------------------------------------
  // The agent object
  // ---------------------------------------------------------------------

  /** An agent: its attributes (`self.__dict__` less the binding) and its framework binding. */
  class Agent {
    const template: Option<Template>
    var attributes: map<string, Value>
    var binding: Option<Binding>

    constructor Init(template: Option<Template>, attributes: map<string, Value>)
      ensures this.template == template && this.attributes == attributes && binding.None?
    {
      this.template := template;
      this.attributes := attributes;
      binding := None;
    }

    /**
     * `_create_agent` with its wrapper: the binding of the current
     * attributes, or, when the framework refuses it, a CREWAI record, the
     * wrapper's record and the wrapper's RuntimeError.
     */
    method Build(store: ErrorHandler, factory: Binding -> Option<Exception>, now: string) returns (result: Outcome<Binding>)
      modifies store
      ensures factory(BindingOf(attributes)).None? ==>
        result == Returned(BindingOf(attributes)) && store.errors == old(store.errors)
      ensures factory(BindingOf(attributes)).Some? ==>
        var e := factory(BindingOf(attributes)).value;
        store.errors == old(store.errors) + BuildFailureRecords(attributes, e, now) &&
        result == Raised(Reraised(GuardRecord(e, now)))
    {
      var candidate := BindingOf(attributes);
      var refused := factory(candidate);
      var inner: Outcome<Binding>;
      if refused.Some? {
        var role := ValueStr(Get(attributes, "role"));
        var error := store.CreateError("Failed to create agent with role '" + role + "'", CrewAi, Error,
          Some(map["role" := role, "model" := ValueStr(Get(attributes, "model"))]), Some(refused.value), None, now);
        inner := Raised(refused.value);
      } else {
        inner := Returned(candidate);
      }
      result := store.Guard(inner, now);
    }

    /** `get_agent`. */
    method GetAgent() returns (b: Option<Binding>)
      ensures b == binding
    {
      b := binding;
    }

    /** `__str__`. */
    function Str(): string
      reads this
    {
      AgentStr(template, attributes)
    }

    /**
     * `update_config` with its wrapper: every setting naming an existing
     * attribute is applied, then the binding is always rebuilt. When the
     * rebuild fails the new attribute values stay, the old binding stays,
     * and three records are added: the two of the build and the one of
     * `update_config`'s own wrapper.
     */
    method UpdateConfig(store: ErrorHandler, settings: seq<Setting>, factory: Binding -> Option<Exception>, now: string)
      returns (result: Outcome<()>)
      modifies this, store
      ensures attributes == Assign(old(attributes), settings)
      ensures factory(BindingOf(attributes)).None? ==>
        && binding == Some(BindingOf(attributes)) && store.errors == old(store.errors) && result == Returned(())
      ensures factory(BindingOf(attributes)).Some? ==>
        var e := factory(BindingOf(attributes)).value;
        && binding == old(binding)
        && store.errors == old(store.errors) + BuildFailureRecords(attributes, e, now) +
             [GuardRecord(Reraised(GuardRecord(e, now)), now)]
        && result == Raised(Reraised(GuardRecord(Reraised(GuardRecord(e, now)), now)))
    {
      for k := 0 to |settings|
        invariant attributes == Assign(old(attributes), settings[..k])
        invariant store.errors == old(store.errors) && binding == old(binding)
      {
        assert settings[..k + 1][..k] == settings[..k];
        if settings[k].key in attributes {
          attributes := attributes[settings[k].key := settings[k].value];
        }
      }
      assert settings[..|settings|] == settings;
      var built := Build(store, factory, now);
      var inner: Outcome<()>;
      if built.Returned? {
        binding := Some(built.value);
        inner := Returned(());
      } else {
        inner := Raised(built.exc);
      }
      result := store.Guard(inner, now);
    }

    /** `self.language = language`. */
    method SetLanguage(language: string)
      modifies this
      ensures attributes == old(attributes)["language" := Text(language)] && binding == old(binding)
    {
      attributes := attributes["language" := Text(language)];
    }

    /**
     * `update_language` of a specialised agent: records the language, then
     * passes the constructor's role and backstory for it to `update_config`.
     * The goal is untouched.
     */
    method UpdateLanguage(store: ErrorHandler, language: string, factory: Binding -> Option<Exception>, now: string)
      returns (result: Outcome<()>)
      requires template.Some?
      modifies this, store
      ensures attributes == Assign(old(attributes)["language" := Text(language)], LanguageSettings(template.value, language))
      ensures factory(BindingOf(attributes)).None? ==>
        && binding == Some(BindingOf(attributes)) && store.errors == old(store.errors) && result == Returned(())
      ensures factory(BindingOf(attributes)).Some? ==>
        var e := factory(BindingOf(attributes)).value;
        && binding == old(binding)
        && store.errors == old(store.errors) + BuildFailureRecords(attributes, e, now) +
             [GuardRecord(Reraised(GuardRecord(e, now)), now)]
        && result == Raised(Reraised(GuardRecord(Reraised(GuardRecord(e, now)), now)))
    {
      SetLanguage(language);
      result := UpdateConfig(store, LanguageSettings(template.value, language), factory, now);
    }

    /**
     * The part of `BaseAgent.__init__` after the assignments: the agent
     * with the given attributes, then its binding; a failing build leaves
     * its two records and raises out of the constructor.
     */
    static method Construct(store: ErrorHandler, template: Option<Template>, attributes: map<string, Value>,
      factory: Binding -> Option<Exception>, now: string)
      returns (result: Outcome<Agent>)
      modifies store
      ensures factory(BindingOf(attributes)).None? ==>
        && result.Returned? && fresh(result.value) && result.value.template == template
        && result.value.attributes == attributes && result.value.binding == Some(BindingOf(attributes))
        && store.errors == old(store.errors)
      ensures factory(BindingOf(attributes)).Some? ==>
        var e := factory(BindingOf(attributes)).value;
        && store.errors == old(store.errors) + BuildFailureRecords(attributes, e, now)
        && result == Raised(Reraised(GuardRecord(e, now)))
    {
      var agent := new Agent.Init(template, attributes);
      var built := agent.Build(store, factory, now);
      if built.Returned? {
        agent.binding := Some(built.value);
        result := Returned(agent);
      } else {
        result := Raised(built.exc);
      }
    }

    /** `BaseAgent.__init__`: assigns the attributes (default tools and cache when none are given), then builds the binding. */
    static method Create(
      store: ErrorHandler, role: string, goal: string, backstory: string, verbose: bool, allowDelegation: bool,
      temperature: Temperature, apiKey: Option<string>, model: string, tools: Option<seq<Tool>>,
      cache: Option<Cache>, maxIterations: int, maxRpm: Option<int>,
      factory: Binding -> Option<Exception>, now: string)
      returns (result: Outcome<Agent>)
      modifies store
      ensures var attributes := InitialAttributes(role, goal, backstory, verbose, allowDelegation, temperature,
          apiKey, model, tools, cache, maxIterations, maxRpm);
        && (factory(BindingOf(attributes)).None? ==>
              && result.Returned? && fresh(result.value) && result.value.template.None?
              && result.value.attributes == attributes && result.value.binding == Some(BindingOf(attributes))
              && store.errors == old(store.errors))
        && (factory(BindingOf(attributes)).Some? ==>
              var e := factory(BindingOf(attributes)).value;
              && store.errors == old(store.errors) + BuildFailureRecords(attributes, e, now)
              && result == Raised(Reraised(GuardRecord(e, now))))
    {
      result := Construct(store, None, InitialAttributes(role, goal, backstory, verbose, allowDelegation, temperature,
        apiKey, model, tools, cache, maxIterations, maxRpm), factory, now);
    }

    /**
     * A specialised agent's `__init__`: the base constructor with the
     * specialist's attributes; the language attribute is set only after the
     * binding was built.
     */
    static method CreateSpecialist(
      store: ErrorHandler, template: Template, apiKey: Option<string>, model: string, temperature: Temperature,
      tools: Option<seq<Tool>>, cache: Option<Cache>, verbose: bool, language: string,
      factory: Binding -> Option<Exception>, now: string)
      returns (result: Outcome<Agent>)
      modifies store
      ensures var attributes := SpecialistAttributes(template, apiKey, model, temperature, tools, cache, verbose, language);
        && (factory(BindingOf(attributes)).None? ==>
              && result.Returned? && fresh(result.value) && result.value.template == Some(template)
              && result.value.attributes == attributes["language" := Text(language)]
              && result.value.binding == Some(BindingOf(attributes))
              && store.errors == old(store.errors))
        && (factory(BindingOf(attributes)).Some? ==>
              var e := factory(BindingOf(attributes)).value;
              && store.errors == old(store.errors) + BuildFailureRecords(attributes, e, now)
              && result == Raised(Reraised(GuardRecord(e, now))))
    {
      result := Construct(store, Some(template),
        SpecialistAttributes(template, apiKey, model, temperature, tools, cache, verbose, language), factory, now);
      if result.Returned? {
        result.value.attributes := result.value.attributes["language" := Text(language)];
      }
    }
  }

  /**
   * The attributes a specialised agent's `__init__` passes to the base
   * constructor: its role, goal and backstory for the language, delegation
   * allowed, the base defaults for the iteration limit and no rate limit.
   */
  function SpecialistAttributes(
    template: Template, apiKey: Option<string>, model: string, temperature: Temperature,
    tools: Option<seq<Tool>>, cache: Option<Cache>, verbose: bool, language: string): map<string, Value>
  {
    InitialAttributes(Role(template, language), template.goal, Backstory(template, language),
      verbose, true, temperature, apiKey, model, tools, cache, DefaultMaxIterations, None)
  }

  /**
   * A specialised agent starts with the base attributes: the role and
   * backstory its template builds from the language, the goal the language
   * does not touch, delegation allowed, five iterations, no rate limit, and
   * the default tools and cache when none are given.
   */
  lemma SpecialistProfile(
    template: Template, apiKey: Option<string>, model: string, temperature: Temperature,
    tools: Option<seq<Tool>>, cache: Option<Cache>, verbose: bool, language: string)
    ensures var a := SpecialistAttributes(template, apiKey, model, temperature, tools, cache, verbose, language);
      && a.Keys == BaseKeys
      && a["role"] == Text(Role(template, language)) && a["goal"] == Text(template.goal)
      && a["backstory"] == Text(Backstory(template, language))
      && a["allow_delegation"] == Flag(true) && a["max_iterations"] == Number(DefaultMaxIterations)
      && a["max_rpm"] == NoneValue
      && a["tools"] == Tools(ToolsOrDefault(tools)) && a["cache"] == CacheValue(CacheOrDefault(cache))
  {
  }

  /**
   * `update_language` gives an agent the very role and backstory its
   * constructor would have given it for the new language, keeps the goal,
   * and adds no attribute but the language.
   */
  lemma UpdateLanguageMatchesConstructor(
    template: Template, attributes: map<string, Value>, language: string,
    apiKey: Option<string>, model: string, temperature: Temperature,
    tools: Option<seq<Tool>>, cache: Option<Cache>, verbose: bool)
    requires BaseKeys <= attributes.Keys
    ensures var updated := Assign(attributes["language" := Text(language)], LanguageSettings(template, language));
      var built := SpecialistAttributes(template, apiKey, model, temperature, tools, cache, verbose, language);
      && updated.Keys == attributes.Keys + {"language"}
      && Get(updated, "role") == Get(built, "role") == Text(Role(template, language))
      && Get(updated, "backstory") == Get(built, "backstory") == Text(Backstory(template, language))
      && Get(updated, "goal") == Get(attributes, "goal")
      && Get(updated, "language") == Text(language)
  {
    var settings := LanguageSettings(template, language);
    var start := attributes["language" := Text(language)];
    assert settings[..1][..0] == [];
    assert settings[..1] == [settings[0]];
    assert Assign(start, settings[..1][..0]) == start;
    assert "role" in start && "backstory" in start;
    var first := Assign(start, settings[..1]);
    assert first == start["role" := Text(Role(template, language))];
    assert Assign(start, settings) == first["backstory" := Text(Backstory(template, language))];
  }
}
