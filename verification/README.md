# dollfin project-setup core, modelled in Dafny

dollfin is a command-line scaffolder. `init` runs an interactive dialogue
(`runProjectSetup`) that asks for a stack and a project description and
refines the description with AI-generated follow-up questions. It then
looks the chosen stack up in a registry of generation actions
(`initProject`). This project models three parts of that as pure Dafny
functions over supplied inputs:

- **Axes** (`constants.dfy`, module `Constants`): the four closed label lists
  `QUESTIONSLIST.LANGUAGE`, `FRAMEWORK`, `DATABASE` and `AUTHTYPE`.
- **Registry and dispatch** (`registry.dfy`, module `Registry`): covers
  `createProjectSetupActions` and the lookup in `initProject`. Three things
  are built:
  - the registry, keyed by `language:framework:database:authType` over all
    216 combinations;
  - the `funcKey` handler lookup with its `No function for …` fallback;
  - the `Invalid selection` branch.
- **Dialogue** (`setup.dfy`, module `Setup`): covers
  - the merging done by `askInitialQuestions` and `askDetailedQuestions`;
  - the fallback question of `generateFollowUpQuestions`;
  - blank-answer filtering and record format in `askFollowUpQuestions`;
  - append-only accumulation across `iterativeRefinement` rounds;
  - the outcome branching of `runProjectSetup`.
- **Glue** (`init.dfy`, module `Init`): `initProject`, which reads four
  fields off the setup result, renders them into a key and dispatches it.

Supporting modules:

- `Wrappers`: `Option`.
- `Text`: ECMAScript `trim()` whitespace, ASCII `toLowerCase`, and splitting
  on a separator.
- `Seqs`: duplicate-freedom and the cartesian product that the nested
  `forEach` loops enumerate.

How the model represents the program:

- Prompt answers and the Gemini service's replies are inputs.
  - One `Pass` holds the inputs of one pass through `runProjectSetup`.
  - One `RoundInput` holds the inputs of one refinement round.
  - A rejected service call is `None` or `CallFailed`. It ends the dialogue
    as `SetupFailed`, because the source rethrows it.
  - A follow-up reply that does not parse is `Unparseable`.
  - Running out of supplied inputs is `Unfinished`.
- A registry value is an `Action`. Running it produces one log line, an
  `Effect`.

In three places the program's own text promises more than its code does.
The model follows the code:

- The select prompt offers "Continue refining current specifications"
  (src/questions/initialSetup.question.ts:335). Choosing it calls
  `runProjectSetup()` again (lines 338-339), which starts from the first
  question instead of resuming refinement. This is the third Findings row,
  and `Setup.RunProjectSetupIntended` is its corrected counterpart.
- The follow-up prompt asks the service to "generate 3-5 specific follow-up
  questions" (src/questions/initialSetup.question.ts:164). A reply that
  parses is still used as-is: nothing checks the count of questions or
  their shape. The source says nothing about a reply outside that range,
  so this has no corrected counterpart. The model takes any parsed list.
- A declined setup resolves to `{ confirmed: false }`
  (src/questions/initialSetup.question.ts:343). `initProject` never reads
  `confirmed`, so a declined setup still reaches the registry lookup and
  logs `Invalid selection`. This is part of the second Findings row, whose
  corrected `Init.InitProjectIntended` dispatches nothing for it.

A separate Findings row, the first, records a mismatch inside
src/commands/initProject.ts: the handler names in `actionFunctions` never
match the keys that `funcKey` builds.

## Model

| member | source | states |
|---|---|---|
| Text.Trim | src/questions/initialSetup.question.ts:229 | `trim()` returns a contiguous slice of its input with only ECMAScript whitespace cut off before and after it: the result is empty exactly when every character is whitespace, and otherwise starts and ends with a non-whitespace character |
| Text.Lower | src/commands/initProject.ts:32 | `toLowerCase` keeps the length and maps each character position by position (ASCII letters lowered, all else kept) |
| Text.SplitAtSeparator | src/commands/initProject.ts:29 | two joins `x + sep + y` whose left parts hold no separator are equal only when both parts are equal, so a joined key splits back uniquely |
| Seqs.Pairs | src/commands/initProject.ts:25-28 | the nested loops enumerate each pair of the two lists exactly once: length is the product, membership is both memberships, and distinct inputs give distinct pairs |
| Constants.LanguageChoices | src/utils/constants.ts:2-7 | `QUESTIONSLIST.LANGUAGE` is exactly JavaScript, TypeScript, Go, Python in that order, duplicate-free and colon-free, and holds every language's label |
| Constants.FrameworkChoices | src/utils/constants.ts:8-15 | `QUESTIONSLIST.FRAMEWORK` is exactly Express, Nest, Flask, Gin, FastAPI, Fiber in that order, duplicate-free and colon-free |
| Constants.DatabaseChoices | src/utils/constants.ts:16-22 | `QUESTIONSLIST.DATABASE` is exactly PostgreSQL, MongoDB, MySQL; the commented-out SQLite and DynamoDB are not in it |
| Constants.AuthTypeChoices | src/utils/constants.ts:23-27 | `QUESTIONSLIST.AUTHTYPE` is exactly JWT, Session, OAuth, duplicate-free and colon-free |
| Constants.AxisListsComplete | src/utils/constants.ts:30-35 | each `Object.values` list holds every value of its record exactly once |
| Constants.LabelsInjective | src/utils/constants.ts:1-28 | distinct values of an axis carry distinct labels |
| Constants.LabelsColonFree | src/utils/constants.ts:1-28 | no label contains the key separator `:` |
| Registry.Run | src/commands/initProject.ts:10-35 | running a registry value logs exactly one line and never an error: a handler logs its own message at info level, and the fallback for `key` warns `No function for <key>` |
| Registry.Selections | src/commands/initProject.ts:25-28 | the four nested loops visit 216 combinations, each once, and every combination is visited |
| Registry.Build | src/commands/initProject.ts:21-42 | assigning `projectSetupActions[key]` for each visited combination yields keys exactly the visited combinations' keys, each bound to that combination's entry, and one key per combination |
| Registry.ProjectSetupActions | src/commands/initProject.ts:21-45 | the registry, built once, has 216 keys; every combination's key is present and bound to its `funcKey` lookup or fallback; every key is some combination's key |
| Registry.Dispatch | src/commands/initProject.ts:57-61 | a lookup logs exactly one line: the value's own line when the key is present, `Invalid selection` at error level exactly when it is absent |
| Registry.SelectionKeysInjective | src/commands/initProject.ts:29 | distinct combinations have distinct `language:framework:database:authType` keys |
| Registry.SplitJoinKey | src/commands/initProject.ts:29 | two colon-joined keys whose first three fields are colon-free agree field by field |
| Registry.JoinKeyColons | src/commands/initProject.ts:54 | a joined key holds its fields' colons plus exactly three separators |
| Registry.RegistryCoversExactly | src/commands/initProject.ts:21-42 | the registry's keys are every combination's key and nothing else |
| Registry.RegistryKeyIff | src/commands/initProject.ts:54-57 | in a map keyed exactly by the combinations, as the registry is, four rendered strings form a key if and only if each is a label of its axis |
| Registry.KeysNeverInherited | src/commands/initProject.ts:22 | no joined key is a name the plain object inherits from `Object.prototype`, so a present key is an own key |
| Registry.LowerLabelsAreFullNames | src/commands/initProject.ts:32 | lower-casing gives full names (`javascript`, `postgresql`), so the JavaScript/Express/PostgreSQL/JWT `funcKey` is `javascriptexpresspostgresqljwt` |
| Registry.FuncKeyStart | src/commands/initProject.ts:32 | every `funcKey` begins with the first two letters of a full lower-cased language name |
| Registry.FuncKeysMissHandlers | src/commands/initProject.ts:32-34 | no generated `funcKey` is a key of `actionFunctions` or an inherited `Object.prototype` name, so the fallback of `actionFunctions[funcKey] or …` is always taken |
| Registry.EveryEntryIsFallback | src/commands/initProject.ts:33-35 | every one of the 216 registry values is the `No function for <key>` fallback |
| Registry.DispatchSelectionWarns | src/commands/initProject.ts:35 | dispatching any combination's key logs only the warning `No function for <key>` |
| Registry.IntendedLookup | src/commands/initProject.ts:10-18 | the hand-written handlers, looked up by combination, exist for exactly the three JavaScript/Express/PostgreSQL combinations |
| Registry.IntendedSetupActions | src/commands/initProject.ts:21-42 | the registry built with that lookup has the same 216 keys, each bound to its combination's entry |
| Registry.IntendedHandlersReachable | src/commands/initProject.ts:10-35 | in the corrected registry a value is a handler exactly for the JavaScript/Express/PostgreSQL combinations |
| Registry.IntendedRunOutcome | src/commands/initProject.ts:10-35 | running a combination's corrected entry logs at info level exactly for the JavaScript/Express/PostgreSQL combinations, and otherwise warns `No function for <key>` |
| Registry.IntendedHandlersMatchNames | src/commands/initProject.ts:11-16 | each reachable handler is the one whose message spells its combination (JWT, SESSION, OAUTH) |
| Setup.AskInitialQuestions | src/questions/initialSetup.question.ts:98-140 | the answers are copied unchanged, `additionalDetails` starts empty, and purpose and features are absent |
| Setup.AskDetailedQuestions | src/questions/initialSetup.question.ts:142-157 | the spread sets purpose and features to the new answers and keeps every other field |
| Setup.AuthenticationText | src/questions/initialSetup.question.ts:199 | the analysis request shows `None` exactly when authentication is off, and otherwise the label of the chosen auth type |
| Setup.GenerateFollowUpQuestions | src/questions/initialSetup.question.ts:159-190 | a rejected call yields nothing; unparseable text yields exactly the one `General` fallback question; parsed text is returned unchanged, whatever its length |
| Setup.RecordKeepsAnswer | src/questions/initialSetup.question.ts:230 | a record starts with `[category] `, ends with the answer exactly as typed, and is 12 characters longer than category, question and answer together |
| Setup.KeptIndices | src/questions/initialSetup.question.ts:222-231 | the kept positions are exactly those whose answer is non-empty after `trim()`, in increasing order |
| Setup.AskFollowUpQuestions | src/questions/initialSetup.question.ts:219-235 | at most one record per question, in question order, one exactly for each non-blank answer, pairing the question with its own answer |
| Setup.RefinementRound | src/questions/initialSetup.question.ts:242-246 | a round appends its records after the old details and changes no other field |
| Setup.Extended | src/questions/initialSetup.question.ts:246 | appending rounds keeps the old details as a prefix and every other field unchanged |
| Setup.IterativeRefinement | src/questions/initialSetup.question.ts:237-270 | a finished refinement stopped at the first declined round, every round before it succeeded, and the details are the old ones followed by those rounds' records. Which inputs give `RefineFailed` and `RefineUnfinished` is stated by `Setup.RefinementFails` and `Setup.RefinementRunsOut` |
| Setup.RefinementStopsAtDecline | src/questions/initialSetup.question.ts:258-269 | if rounds 1..N succeed and round N is the first decline, the result is the initial details followed by the records of rounds 1..N in round order |
| Setup.RefinementFails | src/questions/initialSetup.question.ts:242-266 | a rejected follow-up call (line 242) or in-round analysis call (line 249) rejects the whole refinement: the result is `RefineFailed` exactly when some round reached after continuing through every earlier round has a rejected call |
| Setup.RefinementRunsOut | src/questions/initialSetup.question.ts:258-266 | the refinement runs out of supplied inputs exactly when every round succeeds and the user continues after each |
| Setup.LaterRoundsIgnored | src/questions/initialSetup.question.ts:265-269 | inputs after the declined round do not affect the result |
| Setup.PassStart | src/questions/initialSetup.question.ts:306-309 | each pass starts with empty additional details |
| Setup.ReviewTurn | src/questions/initialSetup.question.ts:315-349 | only a proceed after successful refinement and final analysis confirms, carrying the refined responses. A rejected refinement or final-analysis call gives `SetupFailed`, and running out of rounds gives `Unfinished`. "Continue refining", "Start over" and "Exit setup" (giving `NotConfirmed`) each come exactly from a decline with that choice, after a successful refinement and final analysis |
| Setup.RunProjectSetup | src/questions/initialSetup.question.ts:303-350 | a confirmed result is one pass's own fresh responses, refined within that pass. A rejected service call in the first pass is rethrown and ends the run as `SetupFailed`, so no later pass is reached; a first pass that runs out of inputs leaves the run `Unfinished` |
| Setup.ProceedConfirms | src/questions/initialSetup.question.ts:323-328 | proceeding yields `{ responses, analysis, confirmed: true }` with the refined responses and the final analysis |
| Setup.RestartChoicesMoveOn | src/questions/initialSetup.question.ts:338-341 | both "Start over" and "Continue refining" hand over to a fresh call |
| Setup.ExitEndsUnconfirmed | src/questions/initialSetup.question.ts:342-344 | "Exit setup" yields `{ confirmed: false }` |
| Setup.ContinueRestartsLikeStartOver | src/questions/initialSetup.question.ts:338-339 | a pass ending in "Continue refining" is forgotten: the outcome is that of the later passes alone |
| Setup.ContinueEqualsStartOver | src/questions/initialSetup.question.ts:338-341 | replacing that pass's "Continue refining" by "Start over" changes nothing |
| Setup.TurnGrows | src/questions/initialSetup.question.ts:246 | a review only ever grows the responses it refines |
| Setup.ContinueFrom | src/questions/initialSetup.question.ts:338-339 | resuming refinement keeps every earlier record as a prefix and every other answer, unless a later pass starts over |
| Setup.RunProjectSetupIntended | src/questions/initialSetup.question.ts:303-350 | with no start-over, a confirmed result grows the first pass's answers |
| Setup.ContinueKeepsRefinement | src/questions/initialSetup.question.ts:338-339 | in the corrected flow "Continue refining" resumes on the refined responses, and a later confirmation keeps their records |
| Init.ResultField | src/questions/initialSetup.question.ts:323-344 | the setup result's own properties are only `responses`, `analysis` and `confirmed`. A name inherited from `Object.prototype` reads an object or a function, and every other property reads as `undefined` |
| Init.TemplateText | src/commands/initProject.ts:54 | a string interpolates as itself and `undefined` as the text `undefined` |
| Init.SelectionFieldsAbsent | src/commands/initProject.ts:51 | the destructured `language`, `framework`, `database` and `authType` are all `undefined` |
| Init.NonLabelKeyAbsent | src/commands/initProject.ts:54-57 | a key whose language part is not a language label is not in the registry |
| Init.ResultKeyUndefined | src/commands/initProject.ts:51-57 | the key is always `undefined:undefined:undefined:undefined`, which is not in the registry |
| Init.InitProject | src/commands/initProject.ts:47-62 | a setup that rejects or never finishes produces no consola line; every result that arrives, confirmed or declined, produces exactly the consola line `Invalid selection` |
| Init.InitProjectNeverRuns | src/commands/initProject.ts:47-62 | whatever the user answers, `init` logs nothing or `Invalid selection` alone, so no generation action ever runs |
| Init.ChosenKeyRegistered | src/commands/initProject.ts:51-57 | the key built from the four chosen labels is a key of the registry as written and of the corrected one, whatever the user picked |
| Init.InitProjectIntended | src/commands/initProject.ts:47-62 | the corrected `initProject` runs exactly the confirmed combination's entry and dispatches nothing when not confirmed |
| Init.IntendedDispatchOutcome | src/commands/initProject.ts:57-58 | under the corrected dispatch, a confirmed setup logs at info level exactly for JavaScript/Express/PostgreSQL, and otherwise warns `No function for <key>` |
| Init.JwtScenario | src/commands/initProject.ts:11-12 | the JavaScript/Express/PostgreSQL/JWT setup logs `Invalid selection` as written, and `Running JavaScript:Express:PostgreSQL:JWT` when corrected |

## Left out

- Gemini calls (`model.generateContent`) are external network services. Their outcomes are inputs: text, a parse result, or a rejection.
- enquirer prompts, `console.log`/`console.error` and consola decoration are I/O. Prompt answers are inputs. Only the consola lines of the registry and the dispatch are `Effect` values. The `console.log(answers)` at src/commands/initProject.ts:49 is not modelled, and neither is any other `console.log` or `console.error` call.
- A prompt the user cancels rejects its `await prompt(...)` (src/questions/initialSetup.question.ts:99, 143, 224, 258, 293, 331). `runProjectSetup` would rethrow that, giving `SetupFailed`. A cancelled prompt is not modelled: every prompt answers. This adds no outcome, because a rejected service call already gives `SetupFailed`.
- `mdFormatter` and `displaySection` are presentation only.
- `confirmProject`'s display is left out. Only its proceed answer is modelled.
- The internals of `JSON.parse` and `JSON.stringify` come from a foreign library, and so does the shape of a parsed value. A parsed reply is taken to be a list of category/question records.
- The text of the analysis and follow-up prompts is not modelled, and neither is the `previousAnalysis` seed it carries. These only shape what the service replies, and the reply is an input.
- src/index.ts is not part of this model: it is command-line argument wiring.
- The answer to the post-decline `select` prompt is one of its three choices, modelled as the datatype `ReviewAction`. The string comparisons against the choice texts are not modelled, since a select prompt returns one of its own choices.
- The handler bodies are `consola.info` stubs, modelled as their one log line.
- The logging of a rejected service call and its rethrow are modelled only as the outcome `SetupFailed`. `initProject` then dispatches nothing.
- The `appType`, `models` and `functions` fields of the `ProjectResponses` interface are never set by the dialogue, so they are not modelled.
- Text.Lower: lowers ASCII letters only. Every label is ASCII, and so is every key compared.
- Setup.RunProjectSetup: the dialogue can loop without bound. The model consumes a finite list of passes and reports `Unfinished` when they run out, instead of not terminating.
- Setup.IterativeRefinement: refinement likewise consumes a finite list of rounds and reports `RefineUnfinished` when they run out.

## Findings

| source | as written | input that shows it | evidently intended | confidence | as-written member | corrected member |
|---|---|---|---|---|---|---|
| src/commands/initProject.ts:32-34 | `funcKey` lower-cases the full labels (`javascriptexpresspostgresqljwt`), but the handlers are keyed `jsexpresspgjwt`, `jsexpresspgsession` and `jsexpresspgoauth`, so every value is the fallback | the combination JavaScript, Express, PostgreSQL, JWT | the three hand-written handlers serve the JavaScript/Express/PostgreSQL combinations their messages spell | high; not executed | Registry.FuncKeysMissHandlers | Registry.IntendedHandlersMatchNames |
| src/commands/initProject.ts:51 | `initProject` destructures `language`, `framework`, `database` and `authType` from the top level of the setup result, where they do not exist, so every result logs `Invalid selection`, a declined one included | any confirmed setup, e.g. JavaScript, Express, PostgreSQL, JWT with proceed | read the selection from `answers.responses`, and dispatch only a confirmed setup | high; not executed | Init.ResultKeyUndefined | Init.InitProjectIntended |
| src/questions/initialSetup.question.ts:338-339 | "Continue refining current specifications" calls `runProjectSetup()` from scratch, like "Start over", so all answers and refinement records are lost | decline the confirmation after a round that recorded one answer, then choose "Continue refining current specifications" | resume refinement on the current responses | high; not executed | Setup.ContinueRestartsLikeStartOver | Setup.ContinueKeepsRefinement |
