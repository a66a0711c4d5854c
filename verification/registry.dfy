/** The stack dispatch registry of src/commands/initProject.ts: the
    hand-written `actionFunctions`, the registry `createProjectSetupActions`
    builds over every combination of the four axes, and the lookup that
    `initProject` performs on it. JavaScript objects used as dictionaries are
    modelled as `map<string, Action>`. */
module Registry {
  import opened Text
  import opened Seqs
  import opened Constants
  import opened Wrappers

  /** One combination of the four axes. */
  datatype Selection = Selection(language: Language, framework: Framework, database: Database, authType: AuthType)

  /** A registry value. Every generation action only logs a line: a
      hand-written handler (named by its `actionFunctions` key) logs its
      `Running …` message at info level; the fallback installed for a key
      without a handler warns `No function for <key>`. */
  datatype Action = Handler(name: string, message: string) | Fallback(key: string)

  /** A line logged through consola at the given level. */
  datatype Effect = Info(text: string) | Warn(text: string) | Error(text: string)

  const InvalidSelection: string := "Invalid selection"

  /** What running an action does: exactly one log line, never an error. */
  function Run(a: Action): (e: Effect)
    ensures !e.Error?
    ensures e.Info? <==> a.Handler?
    ensures a.Handler? ==> e == Info(a.message)
    ensures a.Fallback? ==> e == Warn("No function for " + a.key)
  {
    match a
    case Handler(_, message) => Info(message)
    case Fallback(key) => Warn("No function for " + key)
  }

  /** The template `${language}:${framework}:${database}:${authType}`, used
      both when the registry is built and when a selection is looked up. */
  function JoinKey(language: string, framework: string, database: string, authType: string): string {
    language + ":" + framework + ":" + database + ":" + authType
  }

  /** Registry key of a selection: its four labels, colon-joined. */
  function SelectionKey(s: Selection): string {
    JoinKey(LanguageLabel(s.language), FrameworkLabel(s.framework), DatabaseLabel(s.database), AuthTypeLabel(s.authType))
  }

  /** `funcKey`: the four labels lower-cased and concatenated with no separator. */
  function FuncKey(s: Selection): string {
    Lower(LanguageLabel(s.language)) + Lower(FrameworkLabel(s.framework))
      + Lower(DatabaseLabel(s.database)) + Lower(AuthTypeLabel(s.authType))
  }

  /** The hand-written `actionFunctions` object. */
  const ActionFunctions: map<string, Action> := map[
    "jsexpresspgjwt" := JsExpressPgJwt,
    "jsexpresspgsession" := JsExpressPgSession,
    "jsexpresspgoauth" := JsExpressPgOauth
  ]

  const JsExpressPgJwt: Action := Handler("jsexpresspgjwt", "Running JavaScript:Express:PostgreSQL:JWT")
  const JsExpressPgSession: Action := Handler("jsexpresspgsession", "Running JavaScript:Express:PostgreSQL:SESSION")
  const JsExpressPgOauth: Action := Handler("jsexpresspgoauth", "Running JavaScript:Express:PostgreSQL:OAUTH")

  /** Names a plain JavaScript object inherits from `Object.prototype`: an
      index expression `obj[key]` also finds these. */
  const PrototypeNames: set<string> := {
    "constructor", "__proto__", "hasOwnProperty", "isPrototypeOf", "propertyIsEnumerable",
    "toLocaleString", "toString", "valueOf", "__defineGetter__", "__defineSetter__",
    "__lookupGetter__", "__lookupSetter__"
  }

  /** The combinations in the order the four nested `forEach` loops visit
      them: every combination occurs, exactly once, 4 * 6 * 3 * 3 in all. */
  function Selections(): (r: seq<Selection>)
    ensures |r| == 216
    ensures Distinct(r)
    ensures forall s :: s in r
  {
    AxisListsComplete();
    var inner := Pairs(Frameworks, Pairs(Databases, AuthTypes));
    var p := Pairs(Languages, inner);
    assert forall s: Selection :: (s.framework, (s.database, s.authType)) in inner;
    ToSelections(p)
  }

  /** A selection as the nested pair the loops produce. */
  function AsTuple(s: Selection): (Language, (Framework, (Database, AuthType))) {
    (s.language, (s.framework, (s.database, s.authType)))
  }

  /** Nested pairs read back as selections, position by position. */
  function ToSelections(p: seq<(Language, (Framework, (Database, AuthType)))>): (r: seq<Selection>)
    ensures |r| == |p|
    ensures forall i :: 0 <= i < |p| ==> AsTuple(r[i]) == p[i]
    ensures forall s :: s in r <==> AsTuple(s) in p
    ensures Distinct(p) ==> Distinct(r)
  {
    var r := seq(|p|, i requires 0 <= i < |p| => Selection(p[i].0, p[i].1.0, p[i].1.1.0, p[i].1.1.1));
    assert forall i :: 0 <= i < |p| ==> AsTuple(r[i]) == p[i];
    assert forall s :: AsTuple(s) in p ==> exists i :: 0 <= i < |p| && AsTuple(r[i]) == AsTuple(s);
    r
  }

  /** The value stored for one combination: the handler `lookup` finds for
      it, or else the fallback for the combination's key. */
  function Entry(s: Selection, lookup: Selection -> Option<Action>): Action {
    match lookup(s)
    case Some(handler) => handler
    case None => Fallback(SelectionKey(s))
  }

  /** Running a combination's entry logs at info level exactly when the
      lookup found a handler (a hand-written value is a handler), and
      otherwise warns that the key has no function. */
  lemma {:induction false} RunEntry(s: Selection, lookup: Selection -> Option<Action>)
    requires lookup(s).Some? ==> lookup(s).value.Handler?
    ensures Run(Entry(s, lookup)).Info? <==> lookup(s).Some?
    ensures lookup(s).None? ==> Run(Entry(s, lookup)) == Warn("No function for " + SelectionKey(s))
  {
    if lookup(s).Some? {
      assert Entry(s, lookup) == lookup(s).value;
    }
  }

  /** `actionFunctions[funcKey]`: the hand-written handler stored under the
      combination's `funcKey`, if any. */
  function FuncKeyLookup(s: Selection): Option<Action> {
    var k := FuncKey(s);
    if k in ActionFunctions then Some(ActionFunctions[k]) else None
  }

  /** `projectSetupActions[key(s)] = entry(s)` for each combination of `sels`
      in turn. The keys are exactly the combinations' keys, each holds its
      combination's entry (a later write never clobbers an earlier key, since
      keys are injective), and a duplicate-free list gives one key per item. */
  function Build(sels: seq<Selection>, key: Selection -> string, entry: Selection -> Action): (m: map<string, Action>)
    requires forall s, t :: key(s) == key(t) ==> s == t
    ensures m.Keys == set s | s in sels :: key(s)
    ensures forall s :: s in sels ==> m[key(s)] == entry(s)
    ensures Distinct(sels) ==> |m| == |sels|
  {
    if |sels| == 0 then map[]
    else
      var last := sels[|sels| - 1];
      var init := sels[..|sels| - 1];
      var m := Build(init, key, entry);
      assert sels == init + [last];
      BuildStep(init, last, m, key, entry);
      m[key(last) := entry(last)]
  }

  /** One write of the loop keeps the three facts `Build` promises. */
  lemma {:induction false} BuildStep(init: seq<Selection>, last: Selection, m: map<string, Action>, key: Selection -> string, entry: Selection -> Action)
    requires forall s, t :: key(s) == key(t) ==> s == t
    requires m.Keys == set s | s in init :: key(s)
    requires forall s :: s in init ==> m[key(s)] == entry(s)
    requires Distinct(init) ==> |m| == |init|
    ensures var m' := m[key(last) := entry(last)];
      && m'.Keys == (set s | s in init + [last] :: key(s))
      && (forall s :: s in init + [last] ==> m'[key(s)] == entry(s))
      && (Distinct(init + [last]) ==> |m'| == |init| + 1)
  {
    BuildStepKeys(init, last, m, key, entry);
    if Distinct(init + [last]) {
      BuildStepSize(init, last, m, key, entry);
    }
  }

  /** The write adds exactly the new combination's key. */
  lemma {:induction false} BuildStepKeys(init: seq<Selection>, last: Selection, m: map<string, Action>, key: Selection -> string, entry: Selection -> Action)
    requires m.Keys == set s | s in init :: key(s)
    ensures m[key(last) := entry(last)].Keys == (set s | s in init + [last] :: key(s))
  {
    var sels := init + [last];
    var rhs := set s | s in sels :: key(s);
    forall k | k in rhs
      ensures k in m.Keys + {key(last)}
    {
      var s :| s in sels && k == key(s);
      if s != last {
        assert s in init;
      }
    }
  }

  /** On a duplicate-free list the new key is fresh, so the map grows by one. */
  lemma {:induction false} BuildStepSize(init: seq<Selection>, last: Selection, m: map<string, Action>, key: Selection -> string, entry: Selection -> Action)
    requires forall s, t :: key(s) == key(t) ==> s == t
    requires m.Keys == set s | s in init :: key(s)
    requires Distinct(init) ==> |m| == |init|
    requires Distinct(init + [last])
    ensures |m[key(last) := entry(last)]| == |init| + 1
  {
    var sels := init + [last];
    forall i | 0 <= i < |init|
      ensures init[i] != last
    {
      assert sels[i] == init[i] && sels[|init|] == last;
    }
    forall i, j | 0 <= i < j < |init|
      ensures init[i] != init[j]
    {
      assert sels[i] == init[i] && sels[j] == init[j];
    }
    assert key(last) !in m;
  }

  /** `createProjectSetupActions()`, evaluated once when the module loads:
      216 keys, one per combination, each holding the combination's entry
      and no other key. */
  function ProjectSetupActions(): (m: map<string, Action>)
    ensures |m| == 216
    ensures forall s :: SelectionKey(s) in m && m[SelectionKey(s)] == Entry(s, FuncKeyLookup)
    ensures forall k :: k in m ==> exists s :: k == SelectionKey(s)
  {
    SelectionKeysInjective();
    Build(Selections(), SelectionKey, s => Entry(s, FuncKeyLookup))
  }

  /** `if (projectSetupActions[key]) projectSetupActions[key](); else
      consola.error("Invalid selection")`: exactly one log line, which is the
      error exactly when the key is absent. Every registry value is a
      function, hence truthy, and no key of the form `JoinKey` is an
      inherited name (`KeysNeverInherited`), so presence is own-key presence. */
  function Dispatch(registry: map<string, Action>, key: string): (r: seq<Effect>)
    ensures |r| == 1
    ensures r[0].Error? <==> key !in registry
    ensures key in registry ==> r[0] == Run(registry[key])
    ensures key !in registry ==> r[0] == Error(InvalidSelection)
  {
    if key in registry then [Run(registry[key])] else [Error(InvalidSelection)]
  }

  // ---------------------------------------------------------------------
  // Keys

  /** Distinct combinations have distinct keys: no label contains `:`, so the
      joined key splits back into its four labels. */
  lemma {:induction false} SelectionKeysInjective()
    ensures forall s, t :: SelectionKey(s) == SelectionKey(t) ==> s == t
  {
    forall s, t | SelectionKey(s) == SelectionKey(t)
      ensures s == t
    {
      SelectionKeyInjective(s, t);
    }
  }

  lemma {:induction false} SelectionKeyInjective(s: Selection, t: Selection)
    requires SelectionKey(s) == SelectionKey(t)
    ensures s == t
  {
    LabelsColonFree();
    SplitJoinKey(LanguageLabel(s.language), FrameworkLabel(s.framework), DatabaseLabel(s.database), AuthTypeLabel(s.authType),
                 LanguageLabel(t.language), FrameworkLabel(t.framework), DatabaseLabel(t.database), AuthTypeLabel(t.authType));
    LabelsInjective();
  }

  /** Two joined keys over colon-free first three fields agree field by field. */
  lemma {:induction false} SplitJoinKey(l: string, f: string, d: string, a: string, l': string, f': string, d': string, a': string)
    requires ':' !in l && ':' !in f && ':' !in d
    requires ':' !in l' && ':' !in f' && ':' !in d'
    requires JoinKey(l, f, d, a) == JoinKey(l', f', d', a')
    ensures l == l' && f == f' && d == d' && a == a'
  {
    assert JoinKey(l, f, d, a) == l + [':'] + (f + ":" + d + ":" + a);
    assert JoinKey(l', f', d', a') == l' + [':'] + (f' + ":" + d' + ":" + a');
    SplitAtSeparator(':', l, f + ":" + d + ":" + a, l', f' + ":" + d' + ":" + a');
    assert f + ":" + d + ":" + a == f + [':'] + (d + ":" + a);
    assert f' + ":" + d' + ":" + a' == f' + [':'] + (d' + ":" + a');
    SplitAtSeparator(':', f, d + ":" + a, f', d' + ":" + a');
    SplitAtSeparator(':', d, a, d', a');
  }

  /** A joined key holds the fields' colons plus the three separators. */
  lemma {:induction false} JoinKeyColons(l: string, f: string, d: string, a: string)
    ensures Count(':', JoinKey(l, f, d, a)) == Count(':', l) + Count(':', f) + Count(':', d) + Count(':', a) + 3
  {
    assert Count(':', ":") == 1;
    CountAppend(':', l, ":");
    CountAppend(':', l + ":", f);
    CountAppend(':', l + ":" + f, ":");
    CountAppend(':', l + ":" + f + ":", d);
    CountAppend(':', l + ":" + f + ":" + d, ":");
    CountAppend(':', l + ":" + f + ":" + d + ":", a);
  }

  /** In a map keyed exactly by the combinations (as `ProjectSetupActions`
      is, by `RegistryCoversExactly`), any four strings — `"undefined"` for
      a missing field included — form a key exactly when each is a label of
      its axis. */
  lemma {:induction false} RegistryKeyIff(m: map<string, Action>, l: string, f: string, d: string, a: string)
    requires CoversExactly(m)
    ensures JoinKey(l, f, d, a) in m
      <==> l in LanguageChoices() && f in FrameworkChoices() && d in DatabaseChoices() && a in AuthTypeChoices()
  {
    LabelsAreKey(m, l, f, d, a);
    KeyIsLabels(m, l, f, d, a);
  }

  /** The registry is keyed by every combination and nothing else. */
  lemma {:induction false} RegistryCoversExactly()
    ensures CoversExactly(ProjectSetupActions())
  {
  }

  /** The keys of a registry built over every combination: each
      combination's key and nothing else. */
  ghost predicate CoversExactly(m: map<string, Action>) {
    && (forall s :: SelectionKey(s) in m)
    && (forall k :: k in m ==> exists s :: k == SelectionKey(s))
  }

  lemma {:induction false} LabelsAreKey(m: map<string, Action>, l: string, f: string, d: string, a: string)
    requires CoversExactly(m)
    ensures l in LanguageChoices() && f in FrameworkChoices() && d in DatabaseChoices() && a in AuthTypeChoices()
      ==> JoinKey(l, f, d, a) in m
  {
    if l in LanguageChoices() && f in FrameworkChoices() && d in DatabaseChoices() && a in AuthTypeChoices() {
      var s := Selection(LabelledLanguage(l), LabelledFramework(f), LabelledDatabase(d), LabelledAuthType(a));
      assert JoinKey(l, f, d, a) == SelectionKey(s);
    }
  }

  lemma {:induction false} KeyIsLabels(m: map<string, Action>, l: string, f: string, d: string, a: string)
    requires CoversExactly(m)
    ensures JoinKey(l, f, d, a) in m
      ==> l in LanguageChoices() && f in FrameworkChoices() && d in DatabaseChoices() && a in AuthTypeChoices()
  {
    if JoinKey(l, f, d, a) in m {
      var s :| JoinKey(l, f, d, a) == SelectionKey(s);
      JoinKeyIsLabels(s, l, f, d, a);
    }
  }

  /** Four strings that join to a combination's key are that combination's
      labels: the key has exactly the three separator colons, so no field
      can hold one. */
  lemma {:induction false} JoinKeyIsLabels(s: Selection, l: string, f: string, d: string, a: string)
    requires JoinKey(l, f, d, a) == SelectionKey(s)
    ensures l == LanguageLabel(s.language) && f == FrameworkLabel(s.framework)
    ensures d == DatabaseLabel(s.database) && a == AuthTypeLabel(s.authType)
  {
    var l', f', d', a' := LanguageLabel(s.language), FrameworkLabel(s.framework), DatabaseLabel(s.database), AuthTypeLabel(s.authType);
    LabelsColonFree();
    assert Count(':', l') == 0 && Count(':', f') == 0 && Count(':', d') == 0 && Count(':', a') == 0;
    JoinKeyColons(l, f, d, a);
    JoinKeyColons(l', f', d', a');
    assert Count(':', l) == 0 && Count(':', f) == 0 && Count(':', d) == 0;
    SplitJoinKey(l, f, d, a, l', f', d', a');
  }

  /** The axis value whose label is `label`. */
  function LabelledLanguage(name: string): (l: Language)
    requires name in LanguageChoices()
    ensures LanguageLabel(l) == name
  {
    if name == "JavaScript" then JavaScript else if name == "TypeScript" then TypeScript
    else if name == "Go" then Go else Python
  }

  function LabelledFramework(name: string): (f: Framework)
    requires name in FrameworkChoices()
    ensures FrameworkLabel(f) == name
  {
    if name == "Express" then Express else if name == "Nest" then Nest
    else if name == "Flask" then Flask else if name == "Gin" then Gin
    else if name == "FastAPI" then FastAPI else Fiber
  }

  function LabelledDatabase(name: string): (d: Database)
    requires name in DatabaseChoices()
    ensures DatabaseLabel(d) == name
  {
    if name == "PostgreSQL" then PostgreSQL else if name == "MongoDB" then MongoDB else MySQL
  }

  function LabelledAuthType(name: string): (a: AuthType)
    requires name in AuthTypeChoices()
    ensures AuthTypeLabel(a) == name
  {
    if name == "JWT" then JWT else if name == "Session" then Session else OAuth
  }

  /** No joined key, whatever its fields, is a name inherited from
      `Object.prototype`: every joined key contains `:`, no such name does. */
  lemma {:induction false} KeysNeverInherited(l: string, f: string, d: string, a: string)
    ensures JoinKey(l, f, d, a) !in PrototypeNames
  {
    var key := JoinKey(l, f, d, a);
    assert key[|l|] == ':';
    assert forall n :: n in PrototypeNames ==> ':' !in n;
  }

  // ---------------------------------------------------------------------
  // Handler lookup as written

  /** Lower-casing keeps a label's full name: `javascript`, `postgresql`,
      never the abbreviations `js` or `pg` the handler names use. */
  lemma {:induction false} LowerLabelsAreFullNames()
    ensures Lower("JavaScript") == "javascript"
    ensures Lower("PostgreSQL") == "postgresql"
    ensures FuncKey(Selection(JavaScript, Express, PostgreSQL, JWT)) == "javascriptexpresspostgresqljwt"
  {
    LowerJavaScript();
    LowerPostgreSQL();
    LowerExpressJwt();
  }

  lemma {:induction false} LowerJavaScript()
    ensures Lower("JavaScript") == "javascript"
  {
  }

  lemma {:induction false} LowerPostgreSQL()
    ensures Lower("PostgreSQL") == "postgresql"
  {
  }

  lemma {:induction false} LowerExpressJwt()
    ensures Lower("Express") == "express" && Lower("JWT") == "jwt"
  {
  }

  /** A key that begins like a lower-cased language label: `ja`, `ty`, `go` or `py`. */
  predicate StartsLikeLanguage(k: string) {
    |k| >= 2 && (k[0], k[1]) in {('j', 'a'), ('t', 'y'), ('g', 'o'), ('p', 'y')}
  }

  /** Every `funcKey` begins with the first two characters of its lower-cased
      language label. */
  lemma {:induction false} FuncKeyStart(s: Selection)
    ensures StartsLikeLanguage(FuncKey(s))
  {
    var lang := Lower(LanguageLabel(s.language));
    assert FuncKey(s)[0] == lang[0] && FuncKey(s)[1] == lang[1];
  }

  /** No generated `funcKey` names a hand-written handler (each handler name
      starts `js`, each `funcKey` with a full lower-cased language name), nor
      an inherited `Object.prototype` name. */
  lemma {:induction false} FuncKeysMissHandlers(s: Selection)
    ensures FuncKey(s) !in ActionFunctions
    ensures FuncKey(s) !in PrototypeNames
  {
    FuncKeyStart(s);
    assert forall h :: h in ActionFunctions ==> !StartsLikeLanguage(h);
    assert forall n :: n in PrototypeNames ==> !StartsLikeLanguage(n);
  }

  /** As written, every registry value is the fallback for its own key. */
  lemma {:induction false} EveryEntryIsFallback(s: Selection)
    ensures ProjectSetupActions()[SelectionKey(s)] == Fallback(SelectionKey(s))
  {
    FuncKeysMissHandlers(s);
  }

  /** Dispatching any combination's key warns `No function for <key>` and
      does nothing else; this includes `JavaScript:Express:PostgreSQL:JWT`,
      whose handler exists but is unreachable. */
  lemma {:induction false} DispatchSelectionWarns(s: Selection)
    ensures Dispatch(ProjectSetupActions(), SelectionKey(s)) == [Warn("No function for " + SelectionKey(s))]
  {
    var m, key := ProjectSetupActions(), SelectionKey(s);
    EveryEntryIsFallback(s);
    DispatchFallback(m, key);
  }

  /** Dispatching a key whose stored value is its own fallback warns. */
  lemma {:induction false} DispatchFallback(m: map<string, Action>, key: string)
    requires key in m && m[key] == Fallback(key)
    ensures Dispatch(m, key) == [Warn("No function for " + key)]
  {
  }

  // ---------------------------------------------------------------------
  // Handler lookup as intended

  /** The hand-written handlers looked up by the combination itself: each
      handler serves the combination its name and message spell. */
  function IntendedLookup(s: Selection): (r: Option<Action>)
    ensures r.Some? <==> s.language == JavaScript && s.framework == Express && s.database == PostgreSQL
  {
    if s.language == JavaScript && s.framework == Express && s.database == PostgreSQL then
      match s.authType
      case JWT => Some(JsExpressPgJwt)
      case Session => Some(JsExpressPgSession)
      case OAuth => Some(JsExpressPgOauth)
    else None
  }

  /** Running a combination's intended entry logs at info level exactly for
      the JavaScript/Express/PostgreSQL combinations, and otherwise warns. */
  lemma {:induction false} IntendedRunOutcome(s: Selection)
    ensures Run(Entry(s, IntendedLookup)).Info? <==> s.language == JavaScript && s.framework == Express && s.database == PostgreSQL
    ensures !(s.language == JavaScript && s.framework == Express && s.database == PostgreSQL) ==>
      Run(Entry(s, IntendedLookup)) == Warn("No function for " + SelectionKey(s))
  {
    assert IntendedLookup(s).Some? ==> IntendedLookup(s).value.Handler?;
    RunEntry(s, IntendedLookup);
  }

  /** The registry with handlers found by combination: 216 keys, exactly the
      three JavaScript/Express/PostgreSQL combinations holding a handler. */
  function IntendedSetupActions(): (m: map<string, Action>)
    ensures |m| == 216
    ensures forall s :: SelectionKey(s) in m && m[SelectionKey(s)] == Entry(s, IntendedLookup)
    ensures forall k :: k in m ==> exists s :: k == SelectionKey(s)
  {
    SelectionKeysInjective();
    Build(Selections(), SelectionKey, s => Entry(s, IntendedLookup))
  }

  /** Exactly the three JavaScript/Express/PostgreSQL combinations reach a
      hand-written handler; every other combination keeps the fallback. */
  lemma {:induction false} IntendedHandlersReachable(s: Selection)
    ensures IntendedSetupActions()[SelectionKey(s)].Handler?
      <==> s.language == JavaScript && s.framework == Express && s.database == PostgreSQL
  {
    IntendedEntryKinds(s);
    IntendedEntryStored(s);
  }

  lemma {:induction false} IntendedEntryKinds(s: Selection)
    ensures Entry(s, IntendedLookup).Handler?
      <==> s.language == JavaScript && s.framework == Express && s.database == PostgreSQL
  {
  }

  lemma {:induction false} IntendedEntryStored(s: Selection)
    ensures IntendedSetupActions()[SelectionKey(s)] == Entry(s, IntendedLookup)
  {
  }

  /** Each reachable handler is the one whose name and message spell the
      combination. */
  lemma {:induction false} IntendedHandlersMatchNames(s: Selection)
    requires s.language == JavaScript && s.framework == Express && s.database == PostgreSQL
    ensures IntendedSetupActions()[SelectionKey(s)]
      == match s.authType
         case JWT => JsExpressPgJwt
         case Session => JsExpressPgSession
         case OAuth => JsExpressPgOauth
  {
    IntendedEntryStored(s);
  }
}
