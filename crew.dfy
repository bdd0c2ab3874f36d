/**
 * The development-team crew of src/crews/dev_team_crew.py: how `DevTeamCrew`
 * staffs its four agents (settings, tools and cache), the four task
 * builders, the four-stage `run_full_development_cycle` and the single-stage
 * `run_code_review`.
 *
 * The framework's `Crew(...).kickoff()` is an oracle `answer` that, given
 * the crew it runs, either returns that crew's output text or raises; a
 * `Kickoffs` object keeps the record of every crew started, in order.
 */
module DevTeam {
  import opened Text
  import opened Errors
  import opened Agents
  import Configuration

  // ---------------------------------------------------------------------
  // Staffing the crew
  // ---------------------------------------------------------------------

  const CrewCachePath := "crew_cache.db"

  /** The settings `DevTeamCrew.__init__` hands to each of its four agents. */
  datatype Staffing = Staffing(
    apiKey: Option<string>, model: string, temperature: Temperature, language: string,
    cache: Cache, github: Tool, codeAnalysis: Tool)

  /** Python's `value or default` for an optional string. */
  function OrDefault(value: Option<string>, default: string): (r: string)
    ensures Configuration.Present(value) ==> r == value.value
    ensures !Configuration.Present(value) ==> r == default
  {
    if Configuration.Present(value) then value.value else default
  }

  /** `config or Config()`, where `fallback` is what `Config()` gives in the current environment. */
  function ConfigOr(config: Option<Configuration.Config>, fallback: Outcome<Configuration.Config>)
    : Outcome<Configuration.Config>
  {
    if config.Some? then Returned(config.value) else fallback
  }

  /**
   * The crew's own settings: the key and model given, or the configuration's
   * when none (or an empty one) is given; one shared cache; one GitHub tool
   * made from the configuration and one code-analysis tool for the language.
   */
  function StaffingOf(
    config: Configuration.Config, apiKey: Option<string>, model: Option<string>, language: string,
    temperature: Temperature): Staffing
  {
    Staffing(
      if Configuration.Present(apiKey) then apiKey else config.anthropicApiKey,
      OrDefault(model, config.model), temperature, language, SqliteCache(CrewCachePath),
      Tool.GitHub(config.githubToken, config.githubOwner, config.githubRepo), CodeAnalysis(language))
  }

  /**
   * What building `GitHubTool(...)` does to the process. `get_repo` is
   * called only when the tool ends up with a token, an owner and a
   * repository; it either connects (or is not attempted), raises a
   * `GithubException` that the tool records for the owner and repository
   * it used, or raises another exception, which escapes.
   */
  datatype GitHubSetup =
    | Connected
    | ConnectFailed(owner: string, repo: string, exc: Exception)
    | SetupRaised(exc: Exception)

  /** The records `GitHubTool.__init__` adds to the store: none, or its GITHUB error. */
  function ConnectRecords(setup: GitHubSetup, now: string): seq<AppError>
  {
    match setup
    case ConnectFailed(owner, repo, e) =>
      [NewAppError("Failed to connect to GitHub repository: " + owner + "/" + repo, ErrorCategory.GitHub, Error,
         Some(map["owner" := owner, "repo" := repo]), Some(e), None, now)]
    case _ => []
  }

  /**
   * A failed connection leaves exactly one GITHUB ERROR record naming the
   * repository and carrying the exception; otherwise nothing is recorded.
   */
  lemma ConnectRecordsFacts(setup: GitHubSetup, now: string)
    ensures |ConnectRecords(setup, now)| == (if setup.ConnectFailed? then 1 else 0)
    ensures setup.ConnectFailed? ==>
      var r := ConnectRecords(setup, now)[0];
      && r.category == ErrorCategory.GitHub && r.severity == Error && r.traceback == Some(setup.exc)
      && r.message == "Failed to connect to GitHub repository: " + setup.owner + "/" + setup.repo
      && r.details == map["owner" := setup.owner, "repo" := setup.repo]
      && r.suggestions == DefaultSuggestions(ErrorCategory.GitHub)
  {
  }

  /**
   * An explicit key or model wins when it is non-empty; otherwise the
   * configuration's is used. Every agent shares the crew's cache, and the
   * tools are made from the configuration's GitHub settings and the
   * crew's language.
   */
  lemma StaffingDefaults(
    config: Configuration.Config, apiKey: Option<string>, model: Option<string>, language: string,
    temperature: Temperature)
    ensures var s := StaffingOf(config, apiKey, model, language, temperature);
      && (Configuration.Present(apiKey) ==> s.apiKey == apiKey)
      && (!Configuration.Present(apiKey) ==> s.apiKey == config.anthropicApiKey)
      && (Configuration.Present(model) ==> s.model == model.value)
      && (!Configuration.Present(model) ==> s.model == config.model)
      && s.cache == SqliteCache(CrewCachePath) && s.language == language
      && s.github == Tool.GitHub(config.githubToken, config.githubOwner, config.githubRepo)
      && s.codeAnalysis == CodeAnalysis(language)
  {
  }

  /**
   * The tool list each `_create_*_agent` passes: web search and file reading
   * for everyone, plus the crew's GitHub and code-analysis tools for the
   * developer and the reviewer.
   */
  function ToolsFor(specialty: Specialty, s: Staffing): seq<Tool>
  {
    match specialty
    case Analyst => [WebSearch, FileRead]
    case Architect => [WebSearch, FileRead]
    case Developer => [WebSearch, FileRead, s.github, s.codeAnalysis]
    case Reviewer => [WebSearch, FileRead, s.github, s.codeAnalysis]
  }

  /**
   * The templates of the four agent classes the crew instantiates; the
   * program's are `Specialists()`.
   */
  datatype Roster = Roster(analyst: Template, architect: Template, developer: Template, reviewer: Template)

  function Specialists(): Roster
  {
    Roster(TemplateOf(Analyst), TemplateOf(Architect), TemplateOf(Developer), TemplateOf(Reviewer))
  }

  function ClassFor(classes: Roster, specialty: Specialty): Template
  {
    match specialty
    case Analyst => classes.analyst
    case Architect => classes.architect
    case Developer => classes.developer
    case Reviewer => classes.reviewer
  }

  /** The attributes an agent built from `template` with `tools` for the crew starts with. */
  function RecruitAttributes(template: Template, tools: seq<Tool>, s: Staffing): map<string, Value>
  {
    SpecialistAttributes(template, s.apiKey, s.model, s.temperature, Some(tools), Some(s.cache), true, s.language)
  }

  /**
   * The framework binding such an agent asks for, field by field: the
   * template's texts for the crew's language, verbose, delegation allowed,
   * the crew's temperature, tools (the default pair if none), model and cache, five iterations, and a
   * provider key only when the crew has a non-empty one.
   */
  function Candidate(template: Template, tools: seq<Tool>, s: Staffing): Binding
  {
    Binding(Text(Role(template, s.language)), Text(template.goal), Text(Backstory(template, s.language)),
      Flag(true), Flag(true), Temp(s.temperature), Tools(ToolsOrDefault(Some(tools))),
      if Configuration.Present(s.apiKey) then Some(Text(s.apiKey.value)) else None,
      Text(s.model), CacheValue(s.cache), Number(DefaultMaxIterations))
  }

  /** `Candidate` is exactly the binding of the attributes the agent's constructor sets up. */
  lemma CandidateIsBinding(template: Template, tools: seq<Tool>, s: Staffing)
    ensures Candidate(template, tools, s) == BindingOf(RecruitAttributes(template, tools, s))
  {
    var a := RecruitAttributes(template, tools, s);
    SpecialistProfile(template, s.apiKey, s.model, s.temperature, Some(tools), Some(s.cache), true, s.language);
    assert a["verbose"] == Flag(true) && a["temperature"] == Temp(s.temperature) && a["model"] == Text(s.model);
    assert a["api_key"] == if s.apiKey.Some? then Text(s.apiKey.value) else NoneValue;
  }

  /** The two records a refused binding leaves: the agent's CREWAI record, then the wrapper's. */
  function RefusalRecords(template: Template, s: Staffing, e: Exception, now: string): seq<AppError>
  {
    var role := Role(template, s.language);
    [NewAppError("Failed to create agent with role '" + role + "'", CrewAi, Error,
       Some(map["role" := role, "model" := s.model]), Some(e), None, now),
     GuardRecord(e, now)]
  }

  /** `RefusalRecords` are the records `_create_agent` leaves for the crew's attributes. */
  lemma RefusalRecordsAreBuildFailures(template: Template, tools: seq<Tool>, s: Staffing, e: Exception, now: string)
    ensures RefusalRecords(template, s, e, now) == BuildFailureRecords(RecruitAttributes(template, tools, s), e, now)
  {
    var a := RecruitAttributes(template, tools, s);
    SpecialistProfile(template, s.apiKey, s.model, s.temperature, Some(tools), Some(s.cache), true, s.language);
    assert a["model"] == Text(s.model);
  }

  /** The binding `_create_<specialty>_agent` asks for. */
  function Hire(classes: Roster, specialty: Specialty, s: Staffing): Binding
  {
    Candidate(ClassFor(classes, specialty), ToolsFor(specialty, s), s)
  }

  predicate HasGitHub(tools: seq<Tool>)
  {
    exists i :: 0 <= i < |tools| && tools[i].GitHub?
  }

  predicate HasCodeAnalysis(tools: seq<Tool>)
  {
    exists i :: 0 <= i < |tools| && tools[i].CodeAnalysis?
  }

  /**
   * Each agent is bound with exactly its tool list and the crew's cache;
   * the developer and the reviewer have the GitHub and code-analysis tools,
   * the analyst and the architect have neither. The key and model are the
   * crew's, the role is the class's template for the crew's language, and
   * delegation is allowed.
   */
  lemma ToolWiring(template: Template, specialty: Specialty, s: Staffing)
    requires s.github.GitHub? && s.codeAnalysis.CodeAnalysis?
    ensures var b := Candidate(template, ToolsFor(specialty, s), s);
      && b.tools == Tools(ToolsFor(specialty, s))
      && b.cache == CacheValue(s.cache)
      && b.model == Text(s.model)
      && b.role == Text(Role(template, s.language))
      && b.allowDelegation == Flag(true)
      && (b.provider.None? <==> !Configuration.Present(s.apiKey))
    ensures HasGitHub(ToolsFor(specialty, s)) <==> specialty == Developer || specialty == Reviewer
    ensures HasCodeAnalysis(ToolsFor(specialty, s)) <==> specialty == Developer || specialty == Reviewer
  {
    SpecialistProfile(template, s.apiKey, s.model, s.temperature,
      Some(ToolsFor(specialty, s)), Some(s.cache), true, s.language);
    var tools := ToolsFor(specialty, s);
    if specialty == Developer || specialty == Reviewer {
      assert tools[2].GitHub? && tools[3].CodeAnalysis?;
    } else {
      assert tools == [WebSearch, FileRead];
      assert forall i :: 0 <= i < |tools| ==> !tools[i].GitHub? && !tools[i].CodeAnalysis?;
    }
  }

  /**
   * One agent of the crew: the specialised agent is built and its binding
   * (`get_agent()`) is what the crew keeps. A refused binding leaves the
   * agent's two records and raises out of the call.
   */
  method Recruit(store: ErrorHandler, template: Template, tools: seq<Tool>, s: Staffing,
    factory: Binding -> Option<Exception>, now: string)
    returns (result: Outcome<Binding>)
    modifies store
    ensures factory(Candidate(template, tools, s)).None? ==>
      result == Returned(Candidate(template, tools, s)) && store.errors == old(store.errors)
    ensures factory(Candidate(template, tools, s)).Some? ==>
      var e := factory(Candidate(template, tools, s)).value;
      && store.errors == old(store.errors) + RefusalRecords(template, s, e, now)
      && result == Raised(Reraised(GuardRecord(e, now)))
  {
    CandidateIsBinding(template, tools, s);
    var agent := Agent.CreateSpecialist(store, template, s.apiKey, s.model, s.temperature,
      Some(tools), Some(s.cache), true, s.language, factory, now);
    if agent.Returned? {
      var binding := agent.value.GetAgent();
      result := Returned(binding.value);
    } else {
      RefusalRecordsAreBuildFailures(template, tools, s, factory(Candidate(template, tools, s)).value, now);
      result := Raised(agent.exc);
    }
  }

  /** The four bindings of a staffed crew. */
  datatype Team = Team(analyst: Binding, architect: Binding, developer: Binding, reviewer: Binding)

  /** The first agent, in creation order, whose binding the framework refuses. */
  function FirstRefused(classes: Roster, s: Staffing, factory: Binding -> Option<Exception>): Option<Specialty>
  {
    if factory(Hire(classes, Analyst, s)).Some? then Some(Analyst)
    else if factory(Hire(classes, Architect, s)).Some? then Some(Architect)
    else if factory(Hire(classes, Developer, s)).Some? then Some(Developer)
    else if factory(Hire(classes, Reviewer, s)).Some? then Some(Reviewer)
    else None
  }

  /**
   * The four `_create_*_agent` calls in order. When all bindings are
   * accepted the team holds them; otherwise the first refusal stops the
   * construction, its two records stay and its error is raised.
   */
  method StaffTeam(store: ErrorHandler, classes: Roster, s: Staffing,
    factory: Binding -> Option<Exception>, now: string)
    returns (result: Outcome<Team>)
    modifies store
    ensures FirstRefused(classes, s, factory).None? ==>
      && result == Returned(Team(Hire(classes, Analyst, s), Hire(classes, Architect, s),
           Hire(classes, Developer, s), Hire(classes, Reviewer, s)))
      && store.errors == old(store.errors)
    ensures FirstRefused(classes, s, factory).Some? ==>
      var specialty := FirstRefused(classes, s, factory).value;
      var e := factory(Hire(classes, specialty, s)).value;
      && store.errors == old(store.errors) + RefusalRecords(ClassFor(classes, specialty), s, e, now)
      && result == Raised(Reraised(GuardRecord(e, now)))
  {
    var analyst := Recruit(store, classes.analyst, ToolsFor(Analyst, s), s, factory, now);
    if analyst.Raised? {
      return Raised(analyst.exc);
    }
    var architect := Recruit(store, classes.architect, ToolsFor(Architect, s), s, factory, now);
    if architect.Raised? {
      return Raised(architect.exc);
    }
    var developer := Recruit(store, classes.developer, ToolsFor(Developer, s), s, factory, now);
    if developer.Raised? {
      return Raised(developer.exc);
    }
    var reviewer := Recruit(store, classes.reviewer, ToolsFor(Reviewer, s), s, factory, now);
    if reviewer.Raised? {
      return Raised(reviewer.exc);
    }
    result := Returned(Team(analyst.value, architect.value, developer.value, reviewer.value));
  }

  // ---------------------------------------------------------------------
  // Tasks
  // ---------------------------------------------------------------------

  const NoContext := "No additional context provided."
  const NoConstraints := "No specific constraints provided."
  const NoSpecifications := "No specific specifications provided, focus on " +
    "code quality, security, and performance."

  /** What each task is about: the texts its description interpolates. */
  datatype Brief =
    | AnalysisBrief(requirements: string, context: string)
    | ArchitectureBrief(specifications: string, constraints: string)
    | ImplementationBrief(specifications: string, architecture: string)
    | ReviewBrief(code: string, specifications: string)

  /** A framework `Task`: its brief in the crew's language, and the agent it is assigned to. */
  datatype Task = Task(brief: Brief, language: string, agent: Binding)

  /** The position of a task's stage in the development cycle. */
  function StageOf(brief: Brief): nat
  {
    match brief
    case AnalysisBrief(_, _) => 0
    case ArchitectureBrief(_, _) => 1
    case ImplementationBrief(_, _) => 2
    case ReviewBrief(_, _) => 3
  }

  /** The indentation of the lines of a description. */
  const Pad := "            "

  /**
   * A triple-quoted description: a line break, then each line indented and
   * followed by a line break, then the indentation of the closing quotes.
   */
  function Indented(lines: seq<string>): string
  {
    if lines == [] then "\n" + Pad
    else "\n" + Pad + lines[0] + Indented(lines[1..])
  }

  /** Every line of a description occurs in it. */
  lemma {:induction false} IndentedContains(lines: seq<string>, i: nat)
    requires i < |lines|
    ensures Contains(Indented(lines), lines[i])
  {
    if i == 0 {
      ContainsMiddle("\n" + Pad, lines[0], Indented(lines[1..]));
    } else {
      IndentedContains(lines[1..], i - 1);
      ContainsRight("\n" + Pad + lines[0], Indented(lines[1..]), lines[i]);
    }
  }

  /** Whatever is spliced into a line of a description occurs in the description. */
  lemma IndentedContainsPart(lines: seq<string>, i: nat, before: string, w: string, after: string)
    requires i < |lines| && lines[i] == before + w + after
    ensures Contains(Indented(lines), w)
  {
    IndentedContains(lines, i);
    ContainsMiddle(before, w, after);
    ContainsTransitive(Indented(lines), lines[i], w);
  }

  /** The lines of each task's description. */
  function DescriptionLines(task: Task): seq<string>
  {
    match task.brief
    case AnalysisBrief(requirements, context) => AnalysisLines(task.language, requirements, context)
    case ArchitectureBrief(specifications, constraints) => ArchitectureLines(task.language, specifications, constraints)
    case ImplementationBrief(specifications, architecture) =>
      ImplementationLines(task.language, specifications, architecture)
    case ReviewBrief(code, specifications) => ReviewLines(task.language, code, specifications)
  }

  function AnalysisLines(language: string, requirements: string, context: string): seq<string>
  {
    [ "Analyze the following requirements for a " + language + " application:",
      "",
      requirements,
      "",
      "Additional context:",
      context,
      "",
      "Your task is to:",
      "1. Identify all functional requirements",
      "2. Identify all non-functional requirements",
      "3. Identify any ambiguities or missing information",
      "4. Prioritize the requirements",
      "5. Suggest clarifying questions " + "for any unclear aspects",
      "",
      "Provide a detailed analysis that can be used by " + "the architect to design the system." ]
  }

  function ArchitectureLines(language: string, specifications: string, constraints: string): seq<string>
  {
    [ "Design an architecture for a " + language + " application based on these specifications:",
      "",
      specifications,
      "",
      "Technical constraints:",
      constraints,
      "",
      "Your task is to:",
      "1. Create a high-level architecture diagram " + "(in text form)",
      "2. Define the main components and their " + "responsibilities",
      "3. Specify the interfaces between components",
      "4. Choose appropriate design patterns",
      "5. Address any performance, security, and " + "scalability considerations",
      "6. Justify your architectural decisions",
      "",
      "Make sure your architecture is robust, " + "maintainable, and follows best practices for " +
        language + " applications." ]
  }

  function ImplementationLines(language: string, specifications: string, architecture: string): seq<string>
  {
    [ "Implement " + language + " code based on these specifications:",
      "",
      specifications,
      "",
      "And this architecture:",
      "",
      architecture,
      "",
      "Your task is to:",
      "1. Write clean, maintainable code following " + "best practices for " + language,
      "2. Include appropriate error handling",
      "3. Add comprehensive comments and documentation",
      "4. Implement unit tests",
      "5. Ensure the code follows the specified " + "architecture",
      "",
      "Focus on quality, readability, and adherence to " + "the specifications and architecture." ]
  }

  function ReviewLines(language: string, code: string, specifications: string): seq<string>
  {
    [ "Review this " + language + " code:",
      "",
      "```" + language,
      code,
      "```",
      "",
      "Against these specifications:",
      "",
      specifications,
      "",
      "Your task is to:",
      "1. Check if the code correctly implements the " + "specifications",
      "2. Identify any bugs or edge cases that aren't " + "handled",
      "3. Evaluate code quality (readability, " + "maintainability, etc.)",
      "4. Look for security vulnerabilities",
      "5. Identify performance issues",
      "6. Suggest improvements with specific code " + "examples",
      "",
      "Provide a comprehensive review that will help " + "improve the code." ]
  }

  /** The task's `description`. */
  function Description(task: Task): string
  {
    Indented(DescriptionLines(task))
  }

  /** The task's `expected_output`. */
  function ExpectedOutput(task: Task): string
  {
    match task.brief
    case AnalysisBrief(_, _) =>
      "A comprehensive analysis of the requirements " + "with all functional and non-functional " +
      "requirements identified, prioritized, and any " + "ambiguities noted."
    case ArchitectureBrief(_, _) =>
      "A comprehensive architecture design document " + "with component diagrams, interface " +
      "specifications, design patterns, and " + "justifications for architectural decisions."
    case ImplementationBrief(_, _) =>
      "Complete " + task.language + (" code implementing the specified requirements, " +
      "with documentation and unit tests.")
    case ReviewBrief(_, _) =>
      "A detailed code review identifying bugs, issues, " + "and suggestions for improvement, with " +
      "specific code examples."
  }

  // ---------------------------------------------------------------------
  // Crews and kickoffs
  // ---------------------------------------------------------------------

  datatype Process = Sequential | Hierarchical

  /** A framework `Crew`: its agents, its tasks, its verbosity and its process. */
  datatype Crew = Crew(agents: seq<Binding>, tasks: seq<Task>, verbose: bool, process: Process)

  /** The crew each stage runs: the task's agent alone, the task alone, verbose and sequential. */
  function StageCrew(task: Task): Crew
  {
    Crew([task.agent], [task], true, Sequential)
  }

  /** The framework's record of the crews it was asked to run, in order. */
  class Kickoffs {
    var launched: seq<Crew>

    constructor ()
      ensures launched == []
    {
      launched := [];
    }

    /** `crew.kickoff()`: the crew is started, and its output is the oracle's answer for it. */
    method Kickoff(crew: Crew, answer: Crew -> Outcome<string>) returns (output: Outcome<string>)
      modifies this
      ensures launched == old(launched) + [crew] && output == answer(crew)
    {
      launched := launched + [crew];
      output := answer(crew);
    }
  }

  /** The crews a run started, and what it returned or raised. */
  datatype Run<T> = Run(crews: seq<Crew>, outcome: Outcome<T>)

  /** The keys of the record the full cycle returns. */
  const StageKeys: seq<string> := ["analysis", "architecture", "implementation", "review"]

  // ---------------------------------------------------------------------
  // The crew
  // ---------------------------------------------------------------------

  /** A `DevTeamCrew`: its configuration, its settings and its four agents' bindings. */
  class DevTeamCrew {
    const config: Configuration.Config
    const staffing: Staffing
    const analyst: Binding
    const architect: Binding
    const developer: Binding
    const reviewer: Binding

    constructor Init(config: Configuration.Config, staffing: Staffing, team: Team)
      ensures this.config == config && this.staffing == staffing
      ensures analyst == team.analyst && architect == team.architect
      ensures developer == team.developer && reviewer == team.reviewer
    {
      this.config := config;
      this.staffing := staffing;
      analyst := team.analyst;
      architect := team.architect;
      developer := team.developer;
      reviewer := team.reviewer;
    }

    /**
     * `DevTeamCrew.__init__`: the configuration (the given one, or a new
     * one, which may raise), the crew's settings, the GitHub tool (which
     * may record a failed connection or raise), then the four agents in
     * order. A refused agent stops the construction with its two records.
     */
    static method Create(
      store: ErrorHandler, classes: Roster, apiKey: Option<string>, model: Option<string>, language: string,
      temperature: Temperature, config: Option<Configuration.Config>,
      fallback: Outcome<Configuration.Config>, gitHub: GitHubSetup, factory: Binding -> Option<Exception>,
      now: string)
      returns (result: Outcome<DevTeamCrew>)
      modifies store
      ensures ConfigOr(config, fallback).Raised? ==>
        result == Raised(ConfigOr(config, fallback).exc) && store.errors == old(store.errors)
      ensures ConfigOr(config, fallback).Returned? ==>
        var c := ConfigOr(config, fallback).value;
        var s := StaffingOf(c, apiKey, model, language, temperature);
        var tool := ConnectRecords(gitHub, now);
        && (gitHub.SetupRaised? ==> result == Raised(gitHub.exc) && store.errors == old(store.errors))
        && (!gitHub.SetupRaised? && FirstRefused(classes, s, factory).None? ==>
              && result.Returned? && fresh(result.value)
              && result.value.config == c && result.value.staffing == s
              && result.value.analyst == Hire(classes, Analyst, s)
              && result.value.architect == Hire(classes, Architect, s)
              && result.value.developer == Hire(classes, Developer, s)
              && result.value.reviewer == Hire(classes, Reviewer, s)
              && store.errors == old(store.errors) + tool)
        && (!gitHub.SetupRaised? && FirstRefused(classes, s, factory).Some? ==>
              var specialty := FirstRefused(classes, s, factory).value;
              var e := factory(Hire(classes, specialty, s)).value;
              && store.errors == old(store.errors) + tool +
                   RefusalRecords(ClassFor(classes, specialty), s, e, now)
              && result == Raised(Reraised(GuardRecord(e, now))))
    {
      var configured := ConfigOr(config, fallback);
      if configured.Raised? {
        return Raised(configured.exc);
      }
      var s := StaffingOf(configured.value, apiKey, model, language, temperature);
      if gitHub.SetupRaised? {
        return Raised(gitHub.exc);
      }
      if gitHub.ConnectFailed? {
        store.AddError(ConnectRecords(gitHub, now)[0]);
      }
      var team := StaffTeam(store, classes, s, factory, now);
      if team.Raised? {
        return Raised(team.exc);
      }
      var crew := new DevTeamCrew.Init(configured.value, s, team.value);
      result := Returned(crew);
    }

    /** The agents of the four stages, in stage order. */
    function Staff(): seq<Binding>
    {
      [analyst, architect, developer, reviewer]
    }

    /** `_create_analysis_task`: the requirements and the context, or its default text, for the analyst. */
    function AnalysisTask(requirements: string, context: Option<string>): Task
    {
      Task(AnalysisBrief(requirements, OrDefault(context, NoContext)), staffing.language, analyst)
    }

    /** `_create_architecture_task`: the specifications and the constraints, or their default text, for the architect. */
    function ArchitectureTask(specifications: string, constraints: Option<string>): Task
    {
      Task(ArchitectureBrief(specifications, OrDefault(constraints, NoConstraints)), staffing.language, architect)
    }

    /** `_create_implementation_task`: the specifications and the architecture, for the developer. */
    function ImplementationTask(specifications: string, architecture: string): Task
    {
      Task(ImplementationBrief(specifications, architecture), staffing.language, developer)
    }

    /** `_create_review_task`: the code and the specifications, for the reviewer. */
    function ReviewTask(code: string, specifications: string): Task
    {
      Task(ReviewBrief(code, specifications), staffing.language, reviewer)
    }

    /**
     * The analysis task is the analyst's; its description quotes the
     * requirements, the language, and the context or, when there is none,
     * "No additional context provided.".
     */
    lemma AnalysisTaskText(requirements: string, context: Option<string>)
      ensures var task := AnalysisTask(requirements, context);
        && task.agent == analyst && StageOf(task.brief) == 0
        && Contains(Description(task), requirements) && Contains(Description(task), staffing.language)
        && (Configuration.Present(context) ==> Contains(Description(task), context.value))
        && (!Configuration.Present(context) ==> Contains(Description(task), NoContext))
    {
      var lines := AnalysisLines(staffing.language, requirements, OrDefault(context, NoContext));
      IndentedContains(lines, 2);
      IndentedContains(lines, 5);
      IndentedContainsPart(lines, 0, "Analyze the following requirements for a ", staffing.language, " application:");
    }

    /**
     * The architecture task is the architect's; its description quotes the
     * specifications, the language, and the constraints or, when there are
     * none, "No specific constraints provided.".
     */
    lemma ArchitectureTaskText(specifications: string, constraints: Option<string>)
      ensures var task := ArchitectureTask(specifications, constraints);
        && task.agent == architect && StageOf(task.brief) == 1
        && Contains(Description(task), specifications) && Contains(Description(task), staffing.language)
        && (Configuration.Present(constraints) ==> Contains(Description(task), constraints.value))
        && (!Configuration.Present(constraints) ==> Contains(Description(task), NoConstraints))
    {
      var lines := ArchitectureLines(staffing.language, specifications, OrDefault(constraints, NoConstraints));
      IndentedContains(lines, 2);
      IndentedContains(lines, 5);
      IndentedContainsPart(lines, 0, "Design an architecture for a ", staffing.language,
        " application based on these specifications:");
    }

    /**
     * The implementation task is the developer's; its description quotes
     * the specifications, the architecture and the language, and its
     * expected output names the language.
     */
    lemma ImplementationTaskText(specifications: string, architecture: string)
      ensures var task := ImplementationTask(specifications, architecture);
        && task.agent == developer && StageOf(task.brief) == 2
        && Contains(Description(task), specifications) && Contains(Description(task), architecture)
        && Contains(Description(task), staffing.language) && Contains(ExpectedOutput(task), staffing.language)
    {
      var lines := ImplementationLines(staffing.language, specifications, architecture);
      IndentedContains(lines, 2);
      IndentedContains(lines, 6);
      IndentedContainsPart(lines, 0, "Implement ", staffing.language, " code based on these specifications:");
      ContainsMiddle("Complete ", staffing.language, " code implementing the specified requirements, " +
        "with documentation and unit tests.");
    }

    /**
     * The review task is the reviewer's; its description quotes the code in
     * a block fenced for the language, and the specifications.
     */
    lemma ReviewTaskText(code: string, specifications: string)
      ensures var task := ReviewTask(code, specifications);
        && task.agent == reviewer && StageOf(task.brief) == 3
        && Contains(Description(task), code) && Contains(Description(task), specifications)
        && Contains(Description(task), "```" + staffing.language)
    {
      var lines := ReviewLines(staffing.language, code, specifications);
      IndentedContains(lines, 3);
      IndentedContains(lines, 8);
      IndentedContains(lines, 2);
    }

    /**
     * What `run_full_development_cycle` does before its wrapper: analysis,
     * architecture, implementation and review, each in its own crew, each
     * started only once the previous one returned; the first raise ends
     * the run.
     */
    function Cycle(requirements: string, context: Option<string>, constraints: Option<string>,
      answer: Crew -> Outcome<string>): Run<map<string, string>>
    {
      var analysisCrew := StageCrew(AnalysisTask(requirements, context));
      match answer(analysisCrew)
      case Raised(e) => Run([analysisCrew], Raised(e))
      case Returned(analysis) =>
        var architectureCrew := StageCrew(ArchitectureTask(analysis, constraints));
        match answer(architectureCrew)
        case Raised(e) => Run([analysisCrew, architectureCrew], Raised(e))
        case Returned(architecture) =>
          var implementationCrew := StageCrew(ImplementationTask(analysis, architecture));
          match answer(implementationCrew)
          case Raised(e) => Run([analysisCrew, architectureCrew, implementationCrew], Raised(e))
          case Returned(implementation) =>
            var reviewCrew := StageCrew(ReviewTask(implementation, analysis));
            var crews := [analysisCrew, architectureCrew, implementationCrew, reviewCrew];
            match answer(reviewCrew)
            case Raised(e) => Run(crews, Raised(e))
            case Returned(review) =>
              Run(crews, Returned(map[StageKeys[0] := analysis, StageKeys[1] := architecture,
                StageKeys[2] := implementation, StageKeys[3] := review]))
    }

    /**
     * The stages run in order, one crew per stage: the i-th crew launched
     * is a sequential, verbose crew of the i-th agent alone with one task
     * of stage i. Every crew but the last one returned; the run raises
     * exactly when the last crew raised, with its exception, and it
     * returns only after all four stages.
     */
    lemma CycleShape(requirements: string, context: Option<string>, constraints: Option<string>,
      answer: Crew -> Outcome<string>)
      ensures var run := Cycle(requirements, context, constraints, answer);
        && 1 <= |run.crews| <= 4
        && (forall i :: 0 <= i < |run.crews| ==>
              && run.crews[i].agents == [Staff()[i]]
              && |run.crews[i].tasks| == 1 && run.crews[i].tasks[0].agent == Staff()[i]
              && StageOf(run.crews[i].tasks[0].brief) == i
              && run.crews[i].process == Sequential && run.crews[i].verbose)
        && (forall i :: 0 <= i < |run.crews| - 1 ==> answer(run.crews[i]).Returned?)
        && (run.outcome.Raised? <==> answer(run.crews[|run.crews| - 1]).Raised?)
        && (run.outcome.Raised? ==> run.outcome.exc == answer(run.crews[|run.crews| - 1]).exc)
        && (run.outcome.Returned? ==> |run.crews| == 4)
    {
      var analysis := answer(StageCrew(AnalysisTask(requirements, context)));
      if analysis.Returned? {
        var architecture := answer(StageCrew(ArchitectureTask(analysis.value, constraints)));
        if architecture.Returned? {
          var implementation := answer(StageCrew(ImplementationTask(analysis.value, architecture.value)));
          if implementation.Returned? {
            var crews := Cycle(requirements, context, constraints, answer).crews;
            assert |crews| == 4 && crews[3] == StageCrew(ReviewTask(implementation.value, analysis.value));
          }
        }
      }
    }

    /**
     * Each stage works on what the previous ones produced: the analysis on
     * the requirements and the context (or its default), the architecture
     * on the analysis and the constraints (or their default), the
     * implementation on the analysis and the architecture, the review on
     * the implementation with the analysis as its specifications.
     */
    lemma CycleThreading(requirements: string, context: Option<string>, constraints: Option<string>,
      answer: Crew -> Outcome<string>)
      ensures var run := Cycle(requirements, context, constraints, answer);
        var crews := run.crews;
        && |crews| >= 1 && |crews[0].tasks| == 1
        && crews[0].tasks[0].brief == AnalysisBrief(requirements, OrDefault(context, NoContext))
        && (|crews| >= 2 ==>
              |crews[1].tasks| == 1 && crews[1].tasks[0].brief == ArchitectureBrief(answer(crews[0]).value, OrDefault(constraints, NoConstraints)))
        && (|crews| >= 3 ==>
              |crews[2].tasks| == 1 && crews[2].tasks[0].brief == ImplementationBrief(answer(crews[0]).value, answer(crews[1]).value))
        && (|crews| >= 4 ==>
              |crews[3].tasks| == 1 && crews[3].tasks[0].brief == ReviewBrief(answer(crews[2]).value, answer(crews[0]).value))
    {
    }

    /** A completed run maps the four stage names to the four crews' answers, in stage order. */
    lemma CycleResult(requirements: string, context: Option<string>, constraints: Option<string>,
      answer: Crew -> Outcome<string>)
      ensures var run := Cycle(requirements, context, constraints, answer);
        run.outcome.Returned? ==>
          && |run.crews| == 4
          && run.outcome.value.Keys == {"analysis", "architecture", "implementation", "review"}
          && (forall i :: 0 <= i < 4 ==> run.outcome.value[StageKeys[i]] == answer(run.crews[i]).value)
    {
    }

    /**
     * The four stage crews of `run_full_development_cycle`, started one
     * after the other on the framework: exactly the crews of `Cycle` are
     * launched, and the stages' outcome is `Cycle`'s.
     */
    method RunStages(kickoffs: Kickoffs, requirements: string, context: Option<string>,
      constraints: Option<string>, answer: Crew -> Outcome<string>)
      returns (inner: Outcome<map<string, string>>)
      modifies kickoffs
      ensures var run := Cycle(requirements, context, constraints, answer);
        kickoffs.launched == old(kickoffs.launched) + run.crews && inner == run.outcome
    {
      var analysis := kickoffs.Kickoff(StageCrew(AnalysisTask(requirements, context)), answer);
      if analysis.Raised? {
        return Raised(analysis.exc);
      }
      var architecture := kickoffs.Kickoff(StageCrew(ArchitectureTask(analysis.value, constraints)), answer);
      if architecture.Raised? {
        return Raised(architecture.exc);
      }
      var implementation := kickoffs.Kickoff(StageCrew(ImplementationTask(analysis.value, architecture.value)), answer);
      if implementation.Raised? {
        return Raised(implementation.exc);
      }
      var review := kickoffs.Kickoff(StageCrew(ReviewTask(implementation.value, analysis.value)), answer);
      if review.Raised? {
        return Raised(review.exc);
      }
      inner := Returned(map[StageKeys[0] := analysis.value, StageKeys[1] := architecture.value,
        StageKeys[2] := implementation.value, StageKeys[3] := review.value]);
    }

    /**
     * `run_full_development_cycle` with its wrapper. The `process` argument
     * is accepted and has no effect.
     */
    method RunFullDevelopmentCycle(
      store: ErrorHandler, kickoffs: Kickoffs, requirements: string, context: Option<string>,
      constraints: Option<string>, process: Process, answer: Crew -> Outcome<string>, now: string)
      returns (result: Outcome<map<string, string>>)
      modifies store, kickoffs
      ensures var run := Cycle(requirements, context, constraints, answer);
        && kickoffs.launched == old(kickoffs.launched) + run.crews
        && (run.outcome.Returned? ==> result == run.outcome && store.errors == old(store.errors))
        && (run.outcome.Raised? ==>
              && store.errors == old(store.errors) + [GuardRecord(run.outcome.exc, now)]
              && result == Raised(Reraised(GuardRecord(run.outcome.exc, now))))
    {
      var inner := RunStages(kickoffs, requirements, context, constraints, answer);
      result := store.Guard(inner, now);
    }

    /**
     * `run_code_review` with its wrapper: one review crew, with the default
     * specifications text when none (or an empty one) is given.
     */
    method RunCodeReview(
      store: ErrorHandler, kickoffs: Kickoffs, code: string, specifications: Option<string>,
      answer: Crew -> Outcome<string>, now: string)
      returns (result: Outcome<string>)
      modifies store, kickoffs
      ensures var crew := StageCrew(ReviewTask(code,
          if Configuration.Present(specifications) then specifications.value else NoSpecifications));
        && kickoffs.launched == old(kickoffs.launched) + [crew]
        && (answer(crew).Returned? ==> result == answer(crew) && store.errors == old(store.errors))
        && (answer(crew).Raised? ==>
              && store.errors == old(store.errors) + [GuardRecord(answer(crew).exc, now)]
              && result == Raised(Reraised(GuardRecord(answer(crew).exc, now))))
    {
      var review := kickoffs.Kickoff(StageCrew(ReviewTask(code, OrDefault(specifications, NoSpecifications))), answer);
      result := store.Guard(review, now);
    }
  }
}
