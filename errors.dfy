/**
 * The error taxonomy and the process-wide error store of
 * src/error_handler.py: severities, categories, the structured AppError
 * record with its defaults, the store's queries, and the exception
 * classifier used by the `handle_exceptions` wrapper.
 */
module Errors {
  import opened Text

  datatype Option<T> = None | Some(value: T)

  /** ErrorSeverity, in the order the summary reports it. */
  datatype ErrorSeverity = Critical | Error | Warning | Info | Debug
  {
    function Value(): string
    {
      match this
      case Critical => "CRITICAL"
      case Error => "ERROR"
      case Warning => "WARNING"
      case Info => "INFO"
      case Debug => "DEBUG"
    }
  }

  /** ErrorCategory with its display values. */
  datatype ErrorCategory =
    | Configuration | Api | Network | Authentication | Validation
    | GitHub | Llm | Ui | General | CrewAi
  {
    function Value(): string
    {
      match this
      case Configuration => "Configuration Error"
      case Api => "API Error"
      case Network => "Network Error"
      case Authentication => "Authentication Error"
      case Validation => "Validation Error"
      case GitHub => "GitHub Integration Error"
      case Llm => "Language Model Error"
      case Ui => "User Interface Error"
      case General => "General Error"
      case CrewAi => "CrewAI Error"
    }
  }

  /**
   * A raised Python exception, seen through the two strings the classifier
   * reads: `str(type(e))` (for example "<class 'anthropic.RateLimitError'>")
   * and `str(e)`.
   */
  datatype Exception = Exception(typeName: string, message: string)

  /** What calling a wrapped operation produced: its value or an exception. */
  datatype Outcome<T> = Returned(value: T) | Raised(exc: Exception)

  /**
   * AppError. `traceback` keeps the exception whose formatted traceback the
   * record stores (the formatting itself is opaque); `timestamp` is the
   * opaque ISO time at creation.
   */
  datatype AppError = AppError(
    message: string,
    category: ErrorCategory,
    severity: ErrorSeverity,
    details: map<string, string>,
    timestamp: string,
    traceback: Option<Exception>,
    suggestions: seq<string>)

  const ConfigurationSuggestions: seq<string> := [
    "Vérifiez que tous les fichiers de "
      + "configuration existent et sont "
      + "correctement formatés",
    "Assurez-vous que les variables "
      + "d'environnement requises sont "
      + "définies",
    "Consultez la documentation pour les "
      + "paramètres de configuration corrects"]

  const ApiSuggestions: seq<string> := [
    "Vérifiez votre connexion internet",
    "Assurez-vous que votre clé API est "
      + "valide et n'a pas expiré",
    "Vérifiez les quotas et limites de "
      + "votre compte API"]

  const NetworkSuggestions: seq<string> := [
    "Vérifiez votre connexion internet",
    "Vérifiez si le service distant est "
      + "disponible",
    "Essayez de réexécuter l'opération "
      + "plus tard"]

  const AuthenticationSuggestions: seq<string> := [
    "Vérifiez que vos informations "
      + "d'identification sont correctes",
    "Assurez-vous que votre token n'a pas "
      + "expiré",
    "Vérifiez les permissions associées à "
      + "votre compte"]

  const ValidationSuggestions: seq<string> := [
    "Vérifiez le format des données "
      + "d'entrée",
    "Assurez-vous que toutes les valeurs "
      + "requises sont fournies",
    "Consultez la documentation pour les "
      + "formats attendus"]

  const GitHubSuggestions: seq<string> := [
    "Vérifiez votre token d'accès GitHub",
    "Assurez-vous que vous avez les "
      + "permissions nécessaires sur le dépôt",
    "Vérifiez si GitHub est accessible et "
      + "opérationnel"]

  const LlmSuggestions: seq<string> := [
    "Vérifiez votre clé API Anthropic",
    "Assurez-vous que le modèle demandé "
      + "est disponible",
    "Vérifiez vos quotas d'utilisation "
      + "sur la plateforme Anthropic"]

  const UiSuggestions: seq<string> := [
    "Essayez de rafraîchir l'interface",
    "Videz le cache de votre navigateur",
    "Redémarrez l'application"]

  const CrewAiSuggestions: seq<string> := [
    "Vérifiez la configuration des agents "
      + "et des tâches",
    "Assurez-vous que les dépendances de "
      + "CrewAI sont correctement installées",
    "Consultez la documentation CrewAI "
      + "pour les bonnes pratiques"]

  const GeneralSuggestions: seq<string> := [
    "Consultez les logs pour plus de "
      + "détails",
    "Vérifiez la documentation pour les "
      + "procédures de dépannage",
    "Redémarrez l'application et "
      + "réessayez"]

  /** The category-keyed table of remediation suggestions. */
  function DefaultSuggestions(category: ErrorCategory): seq<string>
  {
    match category
    case Configuration => ConfigurationSuggestions
    case Api => ApiSuggestions
    case Network => NetworkSuggestions
    case Authentication => AuthenticationSuggestions
    case Validation => ValidationSuggestions
    case GitHub => GitHubSuggestions
    case Llm => LlmSuggestions
    case Ui => UiSuggestions
    case CrewAi => CrewAiSuggestions
    case General => GeneralSuggestions
  }

  /** Every category has an entry of three suggestions, so the table never yields an empty list. */
  lemma DefaultSuggestionsNonEmpty(category: ErrorCategory)
    ensures |DefaultSuggestions(category)| == 3
  {
    match category
    case Configuration =>
    case Api =>
    case Network =>
    case Authentication =>
    case Validation =>
    case GitHub =>
    case Llm =>
    case Ui =>
    case CrewAi =>
    case General =>
  }

  /**
   * The AppError constructor: `details or {}`, a traceback only when an
   * exception is given, and `suggestions or` the category table (an empty
   * list is falsy, so it also falls back to the table).
   */
  function NewAppError(
    message: string, category: ErrorCategory, severity: ErrorSeverity,
    details: Option<map<string, string>>, exception: Option<Exception>,
    suggestions: Option<seq<string>>, now: string): (e: AppError)
    ensures e.message == message && e.category == category && e.severity == severity
    ensures e.timestamp == now
    ensures e.details == (if details.Some? then details.value else map[])
    ensures e.traceback.None? <==> exception.None?
    ensures exception.Some? ==> e.traceback == exception
    ensures suggestions.Some? && suggestions.value != [] ==> e.suggestions == suggestions.value
    ensures (suggestions.None? || suggestions.value == []) ==> e.suggestions == DefaultSuggestions(category)
    ensures e.suggestions != []
  {
    DefaultSuggestionsNonEmpty(category);
    AppError(
      message, category, severity,
      if details.Some? then details.value else map[],
      now,
      exception,
      if suggestions.Some? && suggestions.value != [] then suggestions.value else DefaultSuggestions(category))
  }

  /** `str(AppError)`: "<category value> (<severity value>): <message>". */
  function ErrorStr(e: AppError): (s: string)
    ensures IsPrefix(e.category.Value() + " (", s)
    ensures Contains(s, e.message)
  {
    var s := e.category.Value() + " (" + e.severity.Value() + "): " + e.message;
    assert s[..|e.category.Value() + " ("|] == e.category.Value() + " (";
    ContainsMiddle(e.category.Value() + " (" + e.severity.Value() + "): ", e.message, "");
    assert e.category.Value() + " (" + e.severity.Value() + "): " + e.message + "" == s;
    s
  }

  // ---------------------------------------------------------------------
  // Exception classification (the decision list in handle_exceptions)
  // ---------------------------------------------------------------------

  /** `word in str(type(e)).lower()`. */
  predicate TypeMentions(e: Exception, word: string)
  {
    Contains(Lower(e.typeName), word)
  }

  /** `word in str(e).lower()`. */
  predicate MessageMentions(e: Exception, word: string)
  {
    Contains(Lower(e.message), word)
  }

  /** The category handle_exceptions assigns to a caught exception. */
  function Classify(e: Exception): ErrorCategory
  {
    if TypeMentions(e, "anthropic") then Llm
    else if TypeMentions(e, "github") then GitHub
    else if TypeMentions(e, "crewai") then CrewAi
    else if MessageMentions(e, "connection") || MessageMentions(e, "timeout") then Network
    else if MessageMentions(e, "permission") || MessageMentions(e, "unauthorized") then Authentication
    else if MessageMentions(e, "config") then Configuration
    else if MessageMentions(e, "validation") || MessageMentions(e, "invalid") then Validation
    else General
  }

  /**
   * An independent, table-driven reading of the same decision list: each
   * rule looks for any of its words in the type string or in the message.
   */
  datatype Rule = Rule(onType: bool, words: seq<string>, category: ErrorCategory)

  predicate RuleMatches(r: Rule, e: Exception)
  {
    exists k :: 0 <= k < |r.words| &&
      (if r.onType then TypeMentions(e, r.words[k]) else MessageMentions(e, r.words[k]))
  }

  function ClassificationRules(): seq<Rule>
  {
    [ Rule(true, ["anthropic"], Llm),
      Rule(true, ["github"], GitHub),
      Rule(true, ["crewai"], CrewAi),
      Rule(false, ["connection", "timeout"], Network),
      Rule(false, ["permission", "unauthorized"], Authentication),
      Rule(false, ["config"], Configuration),
      Rule(false, ["validation", "invalid"], Validation) ]
  }

  /** First matching rule wins; no match gives General. */
  function FirstMatch(rules: seq<Rule>, e: Exception): ErrorCategory
  {
    if rules == [] then General
    else if RuleMatches(rules[0], e) then rules[0].category
    else FirstMatch(rules[1..], e)
  }

  /** Rule `k` decides: it matches and no earlier rule does. */
  predicate Decides(rules: seq<Rule>, e: Exception, k: nat)
  {
    k < |rules| && RuleMatches(rules[k], e) &&
    forall j :: 0 <= j < k ==> !RuleMatches(rules[j], e)
  }

  lemma {:induction false} FirstMatchDecides(rules: seq<Rule>, e: Exception)
    ensures (exists k: nat :: Decides(rules, e, k)) ==>
      exists k: nat :: Decides(rules, e, k) && FirstMatch(rules, e) == rules[k].category
    ensures (forall k :: 0 <= k < |rules| ==> !RuleMatches(rules[k], e)) ==> FirstMatch(rules, e) == General
  {
    if rules != [] {
      FirstMatchDecides(rules[1..], e);
      if !RuleMatches(rules[0], e) {
        if exists k: nat :: Decides(rules, e, k) {
          var k: nat :| Decides(rules, e, k);
          assert k > 0;
          assert Decides(rules[1..], e, k - 1) by {
            forall j | 0 <= j < k - 1 ensures !RuleMatches(rules[1..][j], e) {
              assert rules[1..][j] == rules[j + 1];
            }
          }
          var k' : nat :| Decides(rules[1..], e, k') && FirstMatch(rules[1..], e) == rules[1..][k'].category;
          assert Decides(rules, e, k' + 1) by {
            forall j | 0 <= j < k' + 1 ensures !RuleMatches(rules[j], e) {
              if j > 0 { assert rules[j] == rules[1..][j - 1]; }
            }
          }
        }
        if forall k :: 0 <= k < |rules| ==> !RuleMatches(rules[k], e) {
          assert forall k :: 0 <= k < |rules[1..]| ==> rules[1..][k] == rules[k + 1];
        }
      } else {
        assert Decides(rules, e, 0);
      }
    }
  }

  lemma RuleMatchesOne(r: Rule, e: Exception)
    requires |r.words| == 1
    ensures RuleMatches(r, e) <==>
      (if r.onType then TypeMentions(e, r.words[0]) else MessageMentions(e, r.words[0]))
  {
  }

  lemma RuleMatchesTwo(r: Rule, e: Exception)
    requires |r.words| == 2
    ensures RuleMatches(r, e) <==>
      (if r.onType then TypeMentions(e, r.words[0]) || TypeMentions(e, r.words[1])
       else MessageMentions(e, r.words[0]) || MessageMentions(e, r.words[1]))
  {
  }

  /** The classifier is exactly the ordered rule table, read first-match. */
  lemma ClassifyIsFirstMatch(e: Exception)
    ensures Classify(e) == FirstMatch(ClassificationRules(), e)
  {
    var rs := ClassificationRules();
    RuleMatchesOne(rs[0], e);
    RuleMatchesOne(rs[1], e);
    RuleMatchesOne(rs[2], e);
    RuleMatchesTwo(rs[3], e);
    RuleMatchesTwo(rs[4], e);
    RuleMatchesOne(rs[5], e);
    RuleMatchesTwo(rs[6], e);
    forall k | 0 <= k < 7
      ensures FirstMatch(rs[k..], e) ==
        if RuleMatches(rs[k], e) then rs[k].category else FirstMatch(rs[k + 1..], e)
    {
      assert rs[k..][0] == rs[k] && rs[k..][1..] == rs[k + 1..];
    }
    assert rs[7..] == [] && rs[0..] == rs;
  }

  /**
   * The category is the one of the first rule that matches, in the fixed
   * order, and General exactly when no rule matches.
   */
  lemma ClassifyFirstMatchWins(e: Exception)
    ensures Classify(e) == General <==>
      forall k :: 0 <= k < |ClassificationRules()| ==> !RuleMatches(ClassificationRules()[k], e)
    ensures Classify(e) != General ==>
      exists k: nat :: Decides(ClassificationRules(), e, k) && Classify(e) == ClassificationRules()[k].category
  {
    var rs := ClassificationRules();
    ClassifyIsFirstMatch(e);
    FirstMatchDecides(rs, e);
    if !(forall k :: 0 <= k < |rs| ==> !RuleMatches(rs[k], e)) {
      var k :| 0 <= k < |rs| && RuleMatches(rs[k], e);
      LeastMatch(rs, e, k);
    }
  }

  lemma LeastMatch(rs: seq<Rule>, e: Exception, k: nat)
    requires k < |rs| && RuleMatches(rs[k], e)
    ensures exists m: nat :: Decides(rs, e, m)
    decreases k
  {
    if !Decides(rs, e, k) {
      var j :| 0 <= j < k && RuleMatches(rs[j], e);
      LeastMatch(rs, e, j);
    }
  }

  /** Message rules are ordered: a timeout that is also "invalid" is a network error. */
  lemma NetworkPrecedesValidation(e: Exception)
    requires !TypeMentions(e, "anthropic") && !TypeMentions(e, "github") && !TypeMentions(e, "crewai")
    requires MessageMentions(e, "timeout") && MessageMentions(e, "invalid")
    ensures Classify(e) == Network
  {
  }

  /** The classifier never produces the API or the UI category. */
  lemma ClassifyNeverApiOrUi(e: Exception)
    ensures Classify(e) != Api && Classify(e) != Ui
  {
  }

  // ---------------------------------------------------------------------
  // The summary and the critical predicate
  // ---------------------------------------------------------------------

  /** `sum(1 for e in errors if e.severity == s)`. */
  function CountSeverity(errors: seq<AppError>, s: ErrorSeverity): nat
  {
    if errors == [] then 0
    else CountSeverity(errors[..|errors| - 1], s) + (if errors[|errors| - 1].severity == s then 1 else 0)
  }

  /** The (CRITICAL, ERROR, WARNING, INFO, DEBUG) tuple. */
  datatype Summary = Summary(critical: nat, error: nat, warning: nat, info: nat, debug: nat)
  {
    function Total(): nat { critical + error + warning + info + debug }
  }

  function Summarize(errors: seq<AppError>): Summary
  {
    Summary(
      CountSeverity(errors, Critical), CountSeverity(errors, Error),
      CountSeverity(errors, Warning), CountSeverity(errors, Info),
      CountSeverity(errors, Debug))
  }

  /** `any(e.severity == CRITICAL for e in errors)`. */
  predicate HasCritical(errors: seq<AppError>)
  {
    exists i :: 0 <= i < |errors| && errors[i].severity == Critical
  }

  /** Every error has exactly one of the five severities, so the counts add up. */
  lemma {:induction false} SummaryTotal(errors: seq<AppError>)
    ensures Summarize(errors).Total() == |errors|
  {
    if errors != [] {
      SummaryTotal(errors[..|errors| - 1]);
    }
  }

  /** Appending one error bumps exactly the count of its severity. */
  lemma SummaryAppend(errors: seq<AppError>, e: AppError, s: ErrorSeverity)
    ensures CountSeverity(errors + [e], s) == CountSeverity(errors, s) + (if e.severity == s then 1 else 0)
  {
    assert (errors + [e])[..|errors|] == errors;
  }

  lemma {:induction false} CountPositiveIffPresent(errors: seq<AppError>, s: ErrorSeverity)
    ensures CountSeverity(errors, s) > 0 <==> exists i :: 0 <= i < |errors| && errors[i].severity == s
  {
    if errors != [] {
      var init := errors[..|errors| - 1];
      CountPositiveIffPresent(init, s);
      if exists i :: 0 <= i < |init| && init[i].severity == s {
        var i :| 0 <= i < |init| && init[i].severity == s;
        assert errors[i] == init[i];
      }
      if exists i :: 0 <= i < |errors| && errors[i].severity == s {
        var i :| 0 <= i < |errors| && errors[i].severity == s;
        if i < |init| { assert init[i] == errors[i]; }
      }
    }
  }

  /** has_critical_errors holds exactly when the first summary component is positive. */
  lemma HasCriticalIffSummary(errors: seq<AppError>)
    ensures HasCritical(errors) <==> Summarize(errors).critical > 0
  {
    CountPositiveIffPresent(errors, Critical);
  }

  // ---------------------------------------------------------------------
  // The exception wrapper
  // ---------------------------------------------------------------------

  /** `str(type(RuntimeError(...)))`. */
  const RuntimeErrorType := "<class 'RuntimeError'>"

  /** The ERROR entry the wrapper records for a caught exception. */
  function GuardRecord(e: Exception, now: string): (r: AppError)
    ensures r.message == e.message && r.category == Classify(e) && r.severity == Error
    ensures r.traceback == Some(e) && r.details == map[] && r.suggestions == DefaultSuggestions(Classify(e))
  {
    NewAppError(e.message, Classify(e), Error, None, Some(e), None, now)
  }

  /** The RuntimeError the wrapper raises: "Error: " + str(error). */
  function Reraised(record: AppError): (x: Exception)
    ensures x.typeName == RuntimeErrorType
    ensures IsPrefix("Error: ", x.message) && Contains(x.message, record.message)
  {
    var s := ErrorStr(record);
    var m := "Error: " + s;
    assert m[..7] == "Error: ";
    assert Contains(s, record.message);
    ContainsRight("Error: ", s, record.message);
    Exception(RuntimeErrorType, m)
  }

  /**
   * ErrorHandler: the process-wide, append-only list of AppError records
   * (the class attribute `_errors`), with its class methods.
   */
  class ErrorHandler {
    var errors: seq<AppError>

    constructor ()
      ensures errors == []
    {
      errors := [];
    }

    method AddError(error: AppError)
      modifies this
      ensures errors == old(errors) + [error]
    {
      errors := errors + [error];
    }

    /** Builds the record with its defaults, appends it and returns it. */
    method CreateError(
      message: string, category: ErrorCategory, severity: ErrorSeverity,
      details: Option<map<string, string>>, exception: Option<Exception>,
      suggestions: Option<seq<string>>, now: string) returns (error: AppError)
      modifies this
      ensures error == NewAppError(message, category, severity, details, exception, suggestions, now)
      ensures errors == old(errors) + [error]
      ensures |errors| == |old(errors)| + 1 && errors[|errors| - 1] == error
    {
      error := NewAppError(message, category, severity, details, exception, suggestions, now);
      AddError(error);
    }

    method GetErrors() returns (all: seq<AppError>)
      ensures all == errors
    {
      all := errors;
    }

    method GetLastError() returns (last: Option<AppError>)
      ensures last.None? <==> errors == []
      ensures last.Some? ==> |errors| > 0 && last.value == errors[|errors| - 1]
    {
      if errors != [] {
        last := Some(errors[|errors| - 1]);
      } else {
        last := None;
      }
    }

    method ClearErrors()
      modifies this
      ensures errors == []
      ensures Summarize(errors) == Summary(0, 0, 0, 0, 0) && !HasCritical(errors)
    {
      errors := [];
    }

    /** Reads the store and changes nothing, so two reads agree. */
    method GetErrorSummary() returns (summary: Summary)
      ensures summary == Summarize(errors)
      ensures summary.Total() == |errors|
    {
      summary := Summarize(errors);
      SummaryTotal(errors);
    }

    method HasCriticalErrors() returns (critical: bool)
      ensures critical <==> exists i :: 0 <= i < |errors| && errors[i].severity == Critical
      ensures critical <==> Summarize(errors).critical > 0
    {
      critical := HasCritical(errors);
      HasCriticalIffSummary(errors);
    }

    /**
     * handle_exceptions applied to one call whose outcome is `outcome`: a
     * value passes through untouched and nothing is recorded; an exception
     * is classified, recorded once with severity ERROR, and re-raised as a
     * RuntimeError carrying "Error: " + str(record).
     */
    method Guard<T>(outcome: Outcome<T>, now: string) returns (result: Outcome<T>)
      modifies this
      ensures outcome.Returned? ==> result == outcome && errors == old(errors)
      ensures outcome.Raised? ==>
        errors == old(errors) + [GuardRecord(outcome.exc, now)] &&
        result == Raised(Reraised(GuardRecord(outcome.exc, now)))
    {
      match outcome
      case Returned(_) =>
        result := outcome;
      case Raised(e) =>
        var error := CreateError(e.message, Classify(e), Error, None, Some(e), None, now);
        result := Raised(Reraised(error));
    }
  }
}
