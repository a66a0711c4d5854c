/** `initProject` of src/commands/initProject.ts: run the setup dialogue,
    read the four selections off its result, build the registry key and
    dispatch it. */
module Init {
  import opened Wrappers
  import opened Constants
  import opened Registry
  import opened Setup

  /** The JavaScript values a property read on the setup result can yield;
      `JsFunction(name)` is a built-in function such as `Object`. */
  datatype JsValue = Undefined | JsString(s: string) | JsBool(b: bool) | JsObject | JsFunction(name: string)

  /** `answers.<field>` on the object `runProjectSetup` resolves with. A
      confirmed result is `{ responses, analysis, confirmed: true }`, a
      declined one `{ confirmed: false }`. A name inherited from
      `Object.prototype` reads the inherited member (`__proto__` the
      prototype object, `constructor` the function `Object`, the others the
      built-in method of that name); any other property reads `undefined`. */
  function ResultField(r: SetupResult, field: string): (v: JsValue)
    requires r.Confirmed? || r.NotConfirmed?
    ensures v == Undefined <==> field != "confirmed" && !(r.Confirmed? && field in {"responses", "analysis"}) && field !in PrototypeNames
    ensures field == "confirmed" ==> v == JsBool(r.Confirmed?)
    ensures r.Confirmed? && field == "analysis" ==> v == JsString(r.analysis)
    ensures field in PrototypeNames ==> v.JsObject? || v.JsFunction?
  {
    if field == "confirmed" then JsBool(r.Confirmed?)
    else if r.Confirmed? && field == "responses" then JsObject
    else if r.Confirmed? && field == "analysis" then JsString(r.analysis)
    else if field == "__proto__" then JsObject
    else if field == "constructor" then JsFunction("Object")
    else if field in PrototypeNames then JsFunction(field)
    else Undefined
  }

  /** A value interpolated into a template literal. */
  function TemplateText(v: JsValue): (t: string)
    ensures v.JsString? ==> t == v.s
    ensures v == Undefined ==> t == "undefined"
  {
    match v
    case Undefined => "undefined"
    case JsString(s) => s
    case JsBool(b) => if b then "true" else "false"
    case JsObject => "[object Object]"
    case JsFunction(name) => "function " + name + "() { [native code] }"
  }

  /** The key `initProject` builds from the result's top-level fields. */
  function ResultKey(r: SetupResult): string
    requires r.Confirmed? || r.NotConfirmed?
  {
    JoinKey(TemplateText(ResultField(r, "language")), TemplateText(ResultField(r, "framework")),
            TemplateText(ResultField(r, "database")), TemplateText(ResultField(r, "authType")))
  }

  /** The setup result has no top-level `language`, `framework`, `database`
      or `authType` property. */
  lemma {:induction false} SelectionFieldsAbsent(r: SetupResult)
    requires r.Confirmed? || r.NotConfirmed?
    ensures ResultField(r, "language") == Undefined && ResultField(r, "framework") == Undefined
    ensures ResultField(r, "database") == Undefined && ResultField(r, "authType") == Undefined
  {
  }

  /** A key whose language part is no language label is not in the registry. */
  lemma {:induction false} NonLabelKeyAbsent(l: string, f: string, d: string, a: string)
    requires l !in LanguageChoices()
    ensures JoinKey(l, f, d, a) !in ProjectSetupActions()
  {
    RegistryCoversExactly();
    RegistryKeyIff(ProjectSetupActions(), l, f, d, a);
  }

  /** So the key is always `undefined:undefined:undefined:undefined`, which
      names no combination. */
  lemma {:induction false} ResultKeyUndefined(r: SetupResult)
    requires r.Confirmed? || r.NotConfirmed?
    ensures var u := TemplateText(Undefined); ResultKey(r) == JoinKey(u, u, u, u)
    ensures ResultKey(r) !in ProjectSetupActions()
  {
    ResultKeyAllUndefined(r);
    UndefinedKeyAbsent();
  }

  lemma {:induction false} ResultKeyAllUndefined(r: SetupResult)
    requires r.Confirmed? || r.NotConfirmed?
    ensures var u := TemplateText(Undefined); ResultKey(r) == JoinKey(u, u, u, u)
  {
    SelectionFieldsAbsent(r);
  }

  lemma {:induction false} UndefinedKeyAbsent()
    ensures var u := TemplateText(Undefined); JoinKey(u, u, u, u) !in ProjectSetupActions()
  {
    var u := TemplateText(Undefined);
    assert u == "undefined";
    UndefinedNoLanguage();
    NonLabelKeyAbsent(u, u, u, u);
  }

  lemma {:induction false} UndefinedNoLanguage()
    ensures "undefined" !in LanguageChoices()
  {
    assert LanguageChoices() == ["JavaScript", "TypeScript", "Go", "Python"];
  }

  /** `initProject` as written: the log lines it produces. A setup that
      rejects (rethrown) or never finishes dispatches nothing; every setup
      result that does arrive, confirmed or declined, logs
      `Invalid selection` and runs no action. */
  function InitProject(r: SetupResult): (effects: seq<Effect>)
    ensures |effects| == 0 <==> r.SetupFailed? || r.Unfinished?
    ensures r.Confirmed? || r.NotConfirmed? ==> effects == [Error(InvalidSelection)]
  {
    if r.SetupFailed? || r.Unfinished? then []
    else
      ResultKeyUndefined(r);
      Dispatch(ProjectSetupActions(), ResultKey(r))
  }

  /** Whatever the user answers, the dialogue followed by `initProject` logs
      nothing or `Invalid selection` alone: it never reaches a generation
      action, whose log line is never an error. */
  lemma {:induction false} InitProjectNeverRuns(passes: seq<Pass>)
    requires PassesFit(passes)
    ensures var effects := InitProject(RunProjectSetup(passes)); effects == [] || effects == [Error(InvalidSelection)]
  {
    InitProjectOutcomes(RunProjectSetup(passes));
  }

  lemma {:induction false} InitProjectOutcomes(r: SetupResult)
    ensures InitProject(r) == [] || InitProject(r) == [Error(InvalidSelection)]
  {
    if r.SetupFailed? || r.Unfinished? {
      InitProjectSilent(r);
    } else {
      InitProjectInvalid(r);
    }
  }

  lemma {:induction false} InitProjectSilent(r: SetupResult)
    requires r.SetupFailed? || r.Unfinished?
    ensures InitProject(r) == []
  {
    assert |InitProject(r)| == 0;
  }

  lemma {:induction false} InitProjectInvalid(r: SetupResult)
    requires r.Confirmed? || r.NotConfirmed?
    ensures InitProject(r) == [Error(InvalidSelection)]
  {
  }

  /** The selection a confirmed setup's responses hold. */
  function ChosenSelection(p: ProjectResponses): Selection {
    Selection(p.language, p.framework, p.database, p.authType)
  }

  /** Whatever the user picked, the key of the chosen combination is in the
      registry as written and in the intended one: the choice lists offer
      only labels, and both registries hold every combination. */
  lemma {:induction false} ChosenKeyRegistered(p: ProjectResponses)
    ensures var key := JoinKey(LanguageLabel(p.language), FrameworkLabel(p.framework),
                               DatabaseLabel(p.database), AuthTypeLabel(p.authType));
      key in ProjectSetupActions() && key in IntendedSetupActions()
  {
    var s := ChosenSelection(p);
    assert SelectionKey(s) == JoinKey(LanguageLabel(p.language), FrameworkLabel(p.framework),
                                      DatabaseLabel(p.database), AuthTypeLabel(p.authType));
    assert SelectionKey(s) in ProjectSetupActions();
    assert SelectionKey(s) in IntendedSetupActions();
  }

  /** `initProject` as evidently intended: the selections are read from
      `answers.responses`, handlers are looked up by the combination itself,
      and a declined setup dispatches nothing. A confirmed setup runs exactly
      its combination's entry. */
  function InitProjectIntended(r: SetupResult): (effects: seq<Effect>)
    ensures !r.Confirmed? ==> effects == []
    ensures r.Confirmed? ==> effects == [Run(Entry(ChosenSelection(r.responses), IntendedLookup))]
  {
    if r.Confirmed? then Dispatch(IntendedSetupActions(), SelectionKey(ChosenSelection(r.responses)))
    else []
  }

  /** Under the intended dispatch a confirmed JavaScript/Express/PostgreSQL
      setup logs its handler's `Running …` line, and every other confirmed
      combination warns that it has no function. */
  lemma {:induction false} IntendedDispatchOutcome(r: SetupResult)
    requires r.Confirmed?
    ensures var s := ChosenSelection(r.responses);
      InitProjectIntended(r)[0].Info? <==> s.language == JavaScript && s.framework == Express && s.database == PostgreSQL
    ensures var s := ChosenSelection(r.responses);
      !(s.language == JavaScript && s.framework == Express && s.database == PostgreSQL) ==>
        InitProjectIntended(r) == [Warn("No function for " + SelectionKey(s))]
  {
    var s := ChosenSelection(r.responses);
    var effects := InitProjectIntended(r);
    assert effects == [Run(Entry(s, IntendedLookup))];
    assert effects[0] == Run(Entry(s, IntendedLookup));
    IntendedRunOutcome(s);
  }

  /** The JavaScript/Express/PostgreSQL/JWT setup: as written it logs
      `Invalid selection`; as intended it runs the JWT handler. */
  lemma {:induction false} JwtScenario(r: SetupResult)
    requires r.Confirmed?
    requires r.responses.language == JavaScript && r.responses.framework == Express
    requires r.responses.database == PostgreSQL && r.responses.authType == JWT
    ensures InitProject(r) == [Error(InvalidSelection)]
    ensures InitProjectIntended(r) == [Info("Running JavaScript:Express:PostgreSQL:JWT")]
  {
    InitProjectInvalid(r);
    JwtIntended(r);
  }

  lemma {:induction false} JwtIntended(r: SetupResult)
    requires r.Confirmed?
    requires r.responses.language == JavaScript && r.responses.framework == Express
    requires r.responses.database == PostgreSQL && r.responses.authType == JWT
    ensures InitProjectIntended(r) == [Info("Running JavaScript:Express:PostgreSQL:JWT")]
  {
    var s := ChosenSelection(r.responses);
    assert IntendedLookup(s) == Some(JsExpressPgJwt);
    assert Entry(s, IntendedLookup) == JsExpressPgJwt;
  }
}
