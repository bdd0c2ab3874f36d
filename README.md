# A verified model of the dev-assistant core

This project models the logic of the development assistant built on CrewAI
and Anthropic's Claude. The model has five parts:

- **Error store and classifier** (`errors.dfy`, module `Errors`).
  - `AppError` with its defaults: details, traceback, and category-keyed
    suggestions.
  - `ErrorHandler`, the append-only store of records.
  - The `handle_exceptions` wrapper. It classifies an exception by an
    ordered first-match rule, records one ERROR entry, and re-raises a
    `RuntimeError` carrying `"Error: " + str(record)`.
- **Code-analysis heuristics** (`code_analysis.dfy`, module `CodeAnalysis`).
  - The guards and dispatch of `CodeAnalysisTool._run`.
  - The line scans of `_analyze_code_quality` and `_analyze_security`, and
    the whole-code checks of `_analyze_performance`.
  - The Markdown report of `_format_results`.
  - Regular expressions are uninterpreted predicates. The long-line test
    `len(line) > 100` is exact.
- **Agents** (`agents.dfy`, module `Agents`).
  - `BaseAgent` is the class `Agent`. It keeps the attribute store and the
    framework binding.
  - The `_create_agent` failure path, `update_config` and `__str__`.
  - The four specialised agents: their role, goal and backstory templates,
    `update_language`, and placeholder answers.
- **Configuration** (`configuration.dfy`, module `Configuration`).
  - `Config.__init__` reads the two YAML files and the environment.
  - The warnings of `_validate_config`.
  - The section lookups, and the `format_*_config` loops.
- **The crew** (`crew.dfy`, module `DevTeam`).
  - How `DevTeamCrew` staffs its four agents, and the four task builders.
  - The four-stage `run_full_development_cycle` and the single-stage
    `run_code_review`.

`text.dfy` (module `Text`) holds the string helpers the others need:
substring containment, ASCII lower-casing, Python's `strip`, and
`split`/`join` on a separator.

Outside effects become parameters:

- The current time is a `now` string.
- The framework's `Agent(...)` constructor is an oracle `factory`. It either
  accepts a binding or names the exception it raises.
- `Crew(...).kickoff()` is an oracle `answer` from the crew to its output
  text or exception. A `Kickoffs` object records every crew started, in
  order.
- Regular expressions and `str.format` are oracles, and so is the test of
  whether `float` accepts the temperature text.

Some behaviour of the code that is easy to misread:

- Every agent's `_default_tools` gives web search and file reading only
  (`src/agents/base_agent.py:79` and the subclasses'). The developer and
  the reviewer get the GitHub and code-analysis tools only from the crew
  (`src/crews/dev_team_crew.py:110, 128`).
- The provider rules (anthropic, github, crewai) test only the exception's
  type string, never its message (`src/error_handler.py:269-274`).
- A refused agent construction is recorded as a CREWAI record, followed by
  the wrapper's classified record (`src/agents/base_agent.py:115-124`). It
  is not recorded as a language-model error.
- `_validate_config` only logs warnings and never raises, although its
  docstring (`src/config.py:78`) says it raises a ValueError.

## Model

| member | source | states |
|---|---|---|
| Text.JoinSplit | src/tools/code_analysis_tool.py:110 | splitting on a separator and joining back gives the input; no part contains the separator |
| Text.SplitJoin | src/tools/code_analysis_tool.py:110 | splitting a join of separator-free parts gives back the parts |
| Text.StripEmptyIffAllSpace | src/tools/code_analysis_tool.py:61 | `strip()` gives the empty string exactly when every character is whitespace |
| Text.StripLeftFacts | src/tools/code_analysis_tool.py:126 | the left strip is a suffix of the input; everything it removes is whitespace; it does not start with whitespace |
| Text.StripRightFacts | src/tools/code_analysis_tool.py:126 | the right strip is a prefix of the input; everything it removes is whitespace; it does not end with whitespace |
| Text.LowerPointwise | src/tools/code_analysis_tool.py:132 | lower-casing keeps the length and maps each character on its own |
| Errors.NewAppError | src/error_handler.py:40-58 | message, category, severity and timestamp are stored; details default to the empty map; the traceback is absent exactly when no exception is given; suggestions are those given unless absent or empty, else the category's; suggestions are never empty |
| Errors.DefaultSuggestionsNonEmpty | src/error_handler.py:84-139 | every category has an entry of three suggestions |
| Errors.ErrorStr | src/error_handler.py:157-159 | the text starts with "<category> (" and contains the message |
| Errors.ClassifyIsFirstMatch | src/error_handler.py:269-284 | the if/elif chain equals the first matching rule of the ordered rule table |
| Errors.FirstMatchDecides | src/error_handler.py:269-284 | a rule table yields the category of its first matching rule, and General when no rule matches |
| Errors.ClassifyFirstMatchWins | src/error_handler.py:269-284 | the category is General exactly when no rule matches; otherwise it is the category of the lowest-numbered matching rule |
| Errors.NetworkPrecedesValidation | src/error_handler.py:275-282 | a message with both "timeout" and "invalid" classifies as Network, when no provider word is in the type |
| Errors.ClassifyNeverApiOrUi | src/error_handler.py:268-284 | the wrapper never assigns the API or UI category |
| Errors.SummaryTotal | src/error_handler.py:234-247 | the five severity counts add up to the number of stored errors |
| Errors.SummaryAppend | src/error_handler.py:241-245 | appending a record increases only its own severity's count, by one |
| Errors.CountPositiveIffPresent | src/error_handler.py:257 | a severity's count is positive exactly when some stored error has that severity |
| Errors.HasCriticalIffSummary | src/error_handler.py:241-257 | "has critical" holds exactly when the summary's first count is positive |
| Errors.GuardRecord | src/error_handler.py:287-292 | the wrapper's record has the exception's message, the classified category, ERROR severity, the exception as its traceback, no details, and the category's suggestions |
| Errors.Reraised | src/error_handler.py:295 | the re-raised error is a RuntimeError whose message starts with "Error: " and contains the record's message |
| Errors.ErrorHandler.constructor | src/error_handler.py:166 | the store starts empty |
| Errors.ErrorHandler.AddError | src/error_handler.py:169-176 | the store grows by exactly the given record at its end |
| Errors.ErrorHandler.CreateError | src/error_handler.py:179-204 | the returned record is the one `AppError` builds, and it is appended as the new last element |
| Errors.ErrorHandler.GetErrors | src/error_handler.py:207-214 | returns the stored records |
| Errors.ErrorHandler.GetLastError | src/error_handler.py:217-226 | None exactly for an empty store; otherwise the last record |
| Errors.ErrorHandler.ClearErrors | src/error_handler.py:229-231 | afterwards the store is empty, the summary is all zeros, and there is no critical error |
| Errors.ErrorHandler.GetErrorSummary | src/error_handler.py:234-247 | returns the severity counts of the store, which add up to its size, and changes nothing |
| Errors.ErrorHandler.HasCriticalErrors | src/error_handler.py:250-257 | true exactly when some stored record is CRITICAL, which is exactly when the summary's critical count is positive |
| Errors.ErrorHandler.Guard | src/error_handler.py:260-295 | a returned value passes through and nothing is recorded; an exception adds exactly one classified ERROR record and is re-raised as the RuntimeError of that record |
| CodeAnalysis.MatchingLines | src/tools/code_analysis_tool.py:111-112 | every selected line number lies in 1..number of lines |
| CodeAnalysis.MatchingLinesSound | src/tools/code_analysis_tool.py:111-112 | every selected line satisfies the test |
| CodeAnalysis.MatchingLinesComplete | src/tools/code_analysis_tool.py:111-112 | every line that satisfies the test is selected |
| CodeAnalysis.MatchingLinesAscending | src/tools/code_analysis_tool.py:111 | selected line numbers strictly increase |
| CodeAnalysis.TallyTotal | src/tools/code_analysis_tool.py:183-187 | the four severity counts add up to the number of findings |
| CodeAnalysis.TallyAbsent | src/tools/code_analysis_tool.py:274 | a severity no finding has counts zero |
| CodeAnalysis.ScanFacts | src/tools/code_analysis_tool.py:109-130 | one check yields one finding per matching line, built from that line and its 1-based number, with the check's severity |
| CodeAnalysis.ScanLines | src/tools/code_analysis_tool.py:111-118 | the scanning loop yields the findings of the scan specification |
| CodeAnalysis.ScanSound | src/tools/code_analysis_tool.py:111-130 | each finding's line number is in range, its line matches the check, and it has the check's severity |
| CodeAnalysis.ScanComplete | src/tools/code_analysis_tool.py:111-130 | every matching line has a finding at its line number, and there are exactly as many findings as matching lines |
| CodeAnalysis.ScanAscending | src/tools/code_analysis_tool.py:111-130 | one check's findings are in strictly ascending line order |
| CodeAnalysis.ScanAllFacts | src/tools/code_analysis_tool.py:107-177 | after running several checks in turn, every finding's line is in range and no finding has a severity that no check uses |
| CodeAnalysis.QualityFacts | src/tools/code_analysis_tool.py:180-188 | `issue_count` equals the number of issues, no issue is high, and high+medium+low equals `issue_count`; every issue's line is in range |
| CodeAnalysis.LongLinesSound | src/tools/code_analysis_tool.py:109-118 | every long-line issue points at a line longer than 100 characters and is low severity |
| CodeAnalysis.LongLinesComplete | src/tools/code_analysis_tool.py:109-118 | every line longer than 100 characters has a long-line issue |
| CodeAnalysis.AnalyzeCodeQuality | src/tools/code_analysis_tool.py:93-189 | the issues are those of the long-line and TODO checks, then the Java or Python checks chosen by the lower-cased language; the counts are taken from those issues |
| CodeAnalysis.PatternFindingsFacts | src/tools/code_analysis_tool.py:257-268 | one pattern yields one vulnerability per matching line, with its line number, the pattern's severity and the stripped line as code |
| CodeAnalysis.FindPattern | src/tools/code_analysis_tool.py:260-268 | the scanning loop yields the findings of the pattern specification |
| CodeAnalysis.PatternFindingsSound | src/tools/code_analysis_tool.py:258-268 | each vulnerability's line is in range and matches the pattern |
| CodeAnalysis.PatternFindingsComplete | src/tools/code_analysis_tool.py:258-268 | every line matching a pattern has a vulnerability at its line number |
| CodeAnalysis.PatternFindingsAscending | src/tools/code_analysis_tool.py:258-268 | one pattern's vulnerabilities are in strictly ascending line order |
| CodeAnalysis.FindingsSeverity | src/tools/code_analysis_tool.py:208-268 | when every pattern has one severity, so does every vulnerability found |
| CodeAnalysis.SecurityCounts | src/tools/code_analysis_tool.py:270-280 | `vulnerability_count` equals the number found, all of them are high, and the critical, medium and low counts are zero |
| CodeAnalysis.AnalyzeSecurity | src/tools/code_analysis_tool.py:191-280 | the vulnerabilities are those of the two credential patterns, then of the Java or Python patterns, pattern by pattern |
| CodeAnalysis.PerformanceFacts | src/tools/code_analysis_tool.py:300-350 | at most two issues, counts consistent, none for a language other than Java or Python (case ignored); each issue is present exactly when its pattern matches |
| CodeAnalysis.AnalyzePerformance | src/tools/code_analysis_tool.py:282-350 | the report of the performance specification |
| CodeAnalysis.FormatQuality | src/tools/code_analysis_tool.py:366-380 | the loop builds the quality section of the report specification |
| CodeAnalysis.FormatSecurity | src/tools/code_analysis_tool.py:382-397 | the loop builds the security section of the report specification |
| CodeAnalysis.FormatPerformance | src/tools/code_analysis_tool.py:400-414 | the loop builds the performance section of the report specification |
| CodeAnalysis.FormatResults | src/tools/code_analysis_tool.py:352-416 | the output is the report specification: the header, then each present section in order |
| CodeAnalysis.ReportHeader | src/tools/code_analysis_tool.py:363-416 | the report starts with the header, and is only the header exactly when no section is present |
| CodeAnalysis.IssueListContains | src/tools/code_analysis_tool.py:376-377 | every issue's bullet line is in the issue list |
| CodeAnalysis.VulnerabilityListContains | src/tools/code_analysis_tool.py:391-395 | every vulnerability's bullet line is in the vulnerability list |
| CodeAnalysis.PerformanceListContains | src/tools/code_analysis_tool.py:410-412 | every performance issue's bullet line is in the list |
| CodeAnalysis.SectionInReport | src/tools/code_analysis_tool.py:363-414 | anything in a present section is in the report |
| CodeAnalysis.EveryFindingReported | src/tools/code_analysis_tool.py:363-414 | every finding of every present section appears in the report |
| CodeAnalysis.EmptySectionsSaySo | src/tools/code_analysis_tool.py:378-379 | a present section with no findings makes the report say "No ... detected." |
| CodeAnalysis.SectionsSelected | src/tools/code_analysis_tool.py:66-74 | each section is present exactly when the analysis type is its name or "all"; any other value gives no section |
| CodeAnalysis.CodeAnalysisTool.constructor | src/tools/code_analysis_tool.py:23-34 | the tool keeps the language it was given |
| CodeAnalysis.CodeAnalysisTool.Fail | src/tools/code_analysis_tool.py:81-90 | a failed step leaves the wrapper's record and a GENERAL record carrying the language and analysis type, and answers "Error analyzing code: ..." |
| CodeAnalysis.CodeAnalysisTool.RunSteps | src/tools/code_analysis_tool.py:65-74 | the results of the selected steps, or the exception of a selected step that fails |
| CodeAnalysis.CodeAnalysisTool.Analyze | src/tools/code_analysis_tool.py:64-90 | the rendered results and no record, or, when a selected step fails, the two failure records and the error text |
| CodeAnalysis.CodeAnalysisTool.Respond | src/tools/code_analysis_tool.py:76-79 | the JSON dump for format "json", the Markdown report otherwise |
| CodeAnalysis.CodeAnalysisTool.Run | src/tools/code_analysis_tool.py:36-90 | no language (argument, then the tool's own) gives "Language not specified" before the code is looked at; whitespace-only code gives "No code provided"; neither records anything; otherwise the answer of the selected steps, or the failure path |
| Agents.ToolsOrDefault | src/agents/base_agent.py:62 | an absent or empty tool list is replaced by the default pair; the result is never empty |
| Agents.InitialAttributes | src/agents/base_agent.py:18-65 | the agent holds exactly the twelve base attributes, with tools and cache defaulted |
| Agents.AssignSpec | src/agents/base_agent.py:135-137 | over the stored data attributes, no key is added; each existing key holds the value of its last setting, or keeps its old value |
| Agents.AssignIgnoresUnknown | src/agents/base_agent.py:135-137 | settings naming no existing attribute change nothing |
| Agents.BindingOf | src/agents/base_agent.py:89-110 | there is no provider client exactly when `api_key` is falsy; role, goal and backstory are passed as stored |
| Agents.BindingIgnoresRpm | src/agents/base_agent.py:94-110 | `max_rpm` and `language` do not influence the binding |
| Agents.BuildFailureRecordsFacts | src/agents/base_agent.py:115-124 | a refused construction leaves two records: a CREWAI one, then the wrapper's classified one, both ERROR and both carrying the exception |
| Agents.RoleNamesLanguage | src/agents/analyst_agent.py:39 | a specialised role is the class's fixed prefix followed by the language, so two roles are equal exactly when their languages are |
| Agents.BackstoryMentionsLanguage | src/agents/architect_agent.py:41-50 | the backstory mentions the language |
| Agents.AgentStr | src/agents/base_agent.py:151-158 | the text starts with "<ClassName>(role='" and contains the role |
| Agents.ArchitectureDiagramConstant | src/agents/architect_agent.py:108-141 | the diagram is the same constant text whatever the specifications |
| Agents.GeneratedCode | src/agents/developer_agent.py:107-120 | the placeholder mentions the language |
| Agents.GeneratedUnitTests | src/agents/developer_agent.py:123-135 | the placeholder mentions the language |
| Agents.FixedCode | src/agents/developer_agent.py:138-151 | the placeholder mentions the language |
| Agents.ReviewCode | src/agents/reviewer_agent.py:109-133 | two issues (high at line 10, medium at line 25), two suggestions, and an assessment naming the language |
| Agents.SecurityFindings | src/agents/reviewer_agent.py:135-163 | two entries, critical then high |
| Agents.PerformanceFindings | src/agents/reviewer_agent.py:165-192 | two entries, medium then low |
| Agents.SpecialistProfile | src/agents/analyst_agent.py:39-63 | a specialised agent starts with the base attributes: its class's role and backstory for the language, the fixed goal, delegation allowed, five iterations, no rpm limit, defaulted tools and cache |
| Agents.UpdateLanguageMatchesConstructor | src/agents/analyst_agent.py:39-103 | after `update_language` the role and backstory equal the constructor's for the new language, the goal is unchanged, `language` is set and no other key appears |
| Agents.Agent.Init | src/agents/base_agent.py:50-65 | the agent holds the given attributes and no binding yet |
| Agents.Agent.Build | src/agents/base_agent.py:81-124 | the binding of the current attributes, or, when the framework refuses it, the two failure records and the wrapper's RuntimeError |
| Agents.Agent.GetAgent | src/agents/base_agent.py:142-149 | returns the current binding |
| Agents.Agent.UpdateConfig | src/agents/base_agent.py:126-140 | settings are applied to existing data attributes only; the binding is always rebuilt; on failure the new values stay, the old binding stays, and three records are added |
| Agents.Agent.SetLanguage | src/agents/analyst_agent.py:90 | only `language` changes |
| Agents.Agent.UpdateLanguage | src/agents/analyst_agent.py:82-104 | sets `language`, then applies the role and backstory of the template for it through `update_config`, with its rebuild and failure records |
| Agents.Agent.Construct | src/agents/base_agent.py:67-68 | a fresh agent with the attributes and their binding, or the build's two records and its RuntimeError |
| Agents.Agent.Create | src/agents/base_agent.py:18-68 | `BaseAgent(...)`: the initial attributes with defaults, then their binding or the failure path |
| Agents.Agent.CreateSpecialist | src/agents/analyst_agent.py:16-65 | a specialised agent: the template's attributes for the language, built before `language` is set, then `language` |
| Configuration.LoadYamlConfig | src/config.py:50-73 | a missing or unreadable file gives the empty configuration, a loaded one its document |
| Configuration.GetenvOr | src/config.py:39 | the variable when set, the default only when unset |
| Configuration.NewConfig | src/config.py:22-48 | fails exactly when the temperature is not a number, with `float`'s ValueError; otherwise holds the directory, both files' configurations, and every environment setting (API key, model, temperature text, GitHub token, owner and repository), the model and temperature defaulted when unset |
| Configuration.WarningsExact | src/config.py:75-90 | each of the four warnings is issued exactly when its setting is missing; there are at most four, and none is an error |
| Configuration.Section | src/config.py:102-114 | the named value as parsed, whether or not it is a mapping; an unknown name gives the empty mapping |
| Configuration.FormattedSucceeds | src/config.py:130-136 | formatting completes exactly when every string value formats |
| Configuration.FormattedShape | src/config.py:130-136 | a completed formatting keeps the keys in order; non-string values are copied and string values replaced by their formatted text |
| Configuration.FormattedSpec | src/config.py:127-136 | both of the above: success exactly when every string value formats, and then the same keys, copied non-strings and formatted strings |
| Configuration.FormattedFailure | src/config.py:130-134 | a failure carries the exception of the first string value that does not format |
| Configuration.FormatSection | src/config.py:128-136 | the loop builds the formatting specification, stopping at the first failure |
| Configuration.FormattedValueSucceeds | src/config.py:127-136 | formatting a looked-up value completes exactly when it is a mapping whose string values all format; a value that is not a mapping raises the `AttributeError` of `items()` |
| Configuration.FormatAgentConfig | src/config.py:116-136 | formats the agent's section, or raises the `AttributeError` of `items()` when it is not a mapping |
| Configuration.FormatTaskConfig | src/config.py:138-158 | formats the task's section, or raises the `AttributeError` of `items()` when it is not a mapping |
| Configuration.FormatUnknownIsEmpty | src/config.py:102-136 | an unknown agent formats to the empty section whatever `format` does |
| Configuration.FormatUnknownTaskIsEmpty | src/config.py:104-158 | an unknown task formats to the empty section whatever `format` does |
| DevTeam.OrDefault | src/crews/dev_team_crew.py:153 | `value or default`: the value when non-empty, the default otherwise |
| DevTeam.StaffingDefaults | src/crews/dev_team_crew.py:38-54 | an explicit non-empty key or model wins over the configuration's; one cache; GitHub tool from the configuration; code-analysis tool for the language |
| DevTeam.CandidateIsBinding | src/crews/dev_team_crew.py:63-79 | the binding a crew agent asks for is the template's role, goal and backstory for the crew's language, delegation allowed, the crew's settings and five iterations |
| DevTeam.RefusalRecordsAreBuildFailures | src/crews/dev_team_crew.py:70-79 | a refused crew agent leaves the CREWAI record naming its role and model, then the wrapper's record |
| DevTeam.ToolWiring | src/crews/dev_team_crew.py:63-133 | every agent gets the crew's tools, cache, model and role; the developer and the reviewer, and only they, get the GitHub and code-analysis tools |
| DevTeam.Recruit | src/crews/dev_team_crew.py:63-79 | the candidate binding, or its two failure records and the wrapper's RuntimeError |
| DevTeam.StaffTeam | src/crews/dev_team_crew.py:56-60 | the four agents are built in order; the first refusal stops staffing and leaves only its two records |
| DevTeam.Kickoffs.Kickoff | src/crews/dev_team_crew.py:305 | the crew is appended to the record of crews started, and its answer returned |
| DevTeam.DevTeamCrew.Init | src/crews/dev_team_crew.py:38-60 | the crew keeps its configuration, settings and four agents |
| DevTeam.ConnectRecordsFacts | src/tools/github_tool.py:50-60 | a `GithubException` from `get_repo` leaves exactly one GITHUB ERROR record naming owner/repo, with both in its details and the exception attached; otherwise the tool records nothing |
| DevTeam.DevTeamCrew.Create | src/crews/dev_team_crew.py:21-60 | `config or Config()` (whose failure propagates), then the settings, then the GitHub tool (an escaping exception ends the construction with the store unchanged; a failed connection adds its GITHUB record), then the four agents or the first refusal's records after the tool's |
| DevTeam.DevTeamCrew.AnalysisTaskText | src/crews/dev_team_crew.py:135-166 | the analyst's task mentions the requirements and the language, and the context or "No additional context provided." |
| DevTeam.DevTeamCrew.ArchitectureTaskText | src/crews/dev_team_crew.py:168-200 | the architect's task mentions the specifications and the language, and the constraints or "No specific constraints provided." |
| DevTeam.DevTeamCrew.ImplementationTaskText | src/crews/dev_team_crew.py:202-234 | the developer's task mentions the specifications, the architecture and the language |
| DevTeam.DevTeamCrew.ReviewTaskText | src/crews/dev_team_crew.py:236-271 | the reviewer's task contains the code, the specifications and a code fence for the language |
| DevTeam.DevTeamCrew.CycleShape | src/crews/dev_team_crew.py:294-356 | the stages start in order, one crew each, with one agent and one task, sequential process whatever was asked; a stage starts only when the previous one returned; the cycle raises exactly when the last started stage raised |
| DevTeam.DevTeamCrew.CycleThreading | src/crews/dev_team_crew.py:293-345 | architecture receives the analysis; implementation receives analysis and architecture; review receives implementation as code and analysis (not architecture) as specifications |
| DevTeam.DevTeamCrew.CycleResult | src/crews/dev_team_crew.py:359-364 | a completed cycle returns exactly the keys analysis, architecture, implementation, review, each holding its stage's output |
| DevTeam.DevTeamCrew.RunStages | src/crews/dev_team_crew.py:293-364 | the stage sequence starts exactly the crews of the cycle specification and ends with its outcome |
| DevTeam.DevTeamCrew.RunFullDevelopmentCycle | src/crews/dev_team_crew.py:273-364 | the cycle under the wrapper: its result and no record, or one classified record and the RuntimeError |
| DevTeam.DevTeamCrew.RunCodeReview | src/crews/dev_team_crew.py:366-399 | one review crew, with the fixed default text when the specifications are absent or empty; the wrapper's record on failure |

## Left out

- Logging, `load_dotenv`, `datetime.now()` (a `now` parameter) and `traceback.format_exception` (the exception itself is stored) are not modelled.
- The formatted JSON of `json.dumps` and `AppError.to_dict`/`to_json` are not modelled: a JSON answer carries the results it dumps.
- Python's `re` is not modelled: each pattern is an uninterpreted predicate, on one line or on the whole code.
- YAML parsing is not modelled: a file arrives parsed into a document. A document whose top level parses to something other than a mapping, or whose keys are not strings, is not modelled. A section that is not a mapping is carried only as its Python type name.
- `str.format(**kwargs)` and `float(...)` are oracles, and the temperature is carried as its text without arithmetic.
- The framework's `Agent`, `Crew`, `Task` and `kickoff`, the Anthropic client, `SqliteCache` and the tools are not modelled beyond the values passed to them. The language model's answers are a deterministic oracle per crew, so nondeterminism is not modelled.
- The internals of `GitHubTool` are not part of this model. The tool is a value holding the configuration's token, owner and repository, and what its construction does is an oracle (`DevTeam.GitHubSetup`).
- The process-wide error list is one `ErrorHandler` object passed explicitly, single-threaded.
- Agents.Value: attribute values are a fixed set of kinds, so `update_config` cannot store arbitrary Python objects. The `str()` of tools and caches in `__str__` and in records is a fixed placeholder.
- Agents.RoleNamesLanguage: stated for any template. That the four classes' prefixes are the exact French texts is fixed by their definitions, not restated as a lemma.
- DevTeam.DevTeamCrew.Create: it takes the templates of the four agent classes as a parameter. The program uses `Specialists()`.
- DevTeam.DevTeamCrew.Create: the GitHub tool's construction is the `gitHub` parameter, not derived from the settings. `GitHubTool.__init__` replaces an empty token, owner or repository with `os.getenv` (`src/tools/github_tool.py:39-41`), so the tool may hold other values than the configuration's, and whether `get_repo` is called, and with which owner and repository, is not tied to the configuration. With every agent accepted, the store stays unchanged only when that parameter is `Connected`, and the construction returns only when it is not `SetupRaised`.
- DevTeam.Task: the description is carried as a stage brief with its inputs, and the text is a function of that brief.
- CodeAnalysis.PatternFindingsSound: does not restate that the code field is the stripped line. `PatternFindingsFacts` states it.
- Agents.GeneratedCode, Agents.GeneratedUnitTests, Agents.FixedCode: state only that the placeholder mentions the language, not its full text.
- Agents.Agent.UpdateConfig: a setting is applied when it names a stored data attribute. Python's `hasattr` is also true for `agent`, for the methods and for the dunders, and `setattr` would overwrite them. Such keys are not modelled. With `agent=x` and a refused rebuild, Python keeps `x` as the binding, and a key naming a method makes the rebuild raise a TypeError. No caller in the program passes such keys; `update_language` passes only `role` and `backstory`.
- Text.Lower: lower-cases ASCII letters only. Python's `str.lower()` also maps other letters, and 'İ' becomes two characters. The classifier's provider tests (`Errors.Classify`) can therefore miss a type string whose provider word has non-ASCII capitals, such as "CREWAİ". The comparisons with "java" and "python" (`src/tools/code_analysis_tool.py:132, 155`) decide exactly as in Python: the only non-ASCII characters whose lower case contains an ASCII letter are the Kelvin sign and 'İ', which give 'k' and 'i', and neither letter occurs in "java" or "python".
- Configuration.FloatError: the message quotes the text between single quotes. Python's `float` uses the text's repr, which switches to double quotes when the text contains a single quote, and escapes special characters.
