/** The question-and-refinement dialogue of
    src/questions/initialSetup.question.ts as pure functions. Prompt answers
    and the Gemini service's replies are supplied as input records; a
    rejected service call is `None` (or `CallFailed`), and the service's
    prompt text, the console output and the Markdown display are not modelled. */
module Setup {
  import opened Wrappers
  import opened Text
  import opened Constants

  /** The answers to the six prompts of `askInitialQuestions`. The select
      prompts can only return one of their choices, so those answers are
      axis values. */
  datatype InitialAnswers = InitialAnswers(
    name: string, language: Language, framework: Framework, database: Database, useAuth: bool, authType: AuthType)

  /** The answers to the two prompts of `askDetailedQuestions`. */
  datatype DetailedAnswers = DetailedAnswers(purpose: string, features: string)

  /** The project-responses object. `purpose` and `features` are absent until
      the detailed questions are asked. */
  datatype ProjectResponses = ProjectResponses(
    name: string, language: Language, framework: Framework, database: Database, useAuth: bool, authType: AuthType,
    purpose: Option<string>, features: Option<string>, additionalDetails: seq<string>)

  /** `{ ...responses, additionalDetails: [] }`: the prompt answers with an
      empty list of additional details. */
  function AskInitialQuestions(answers: InitialAnswers): (r: ProjectResponses)
    ensures r.additionalDetails == []
    ensures r.purpose.None? && r.features.None?
    ensures r.language == answers.language && r.framework == answers.framework && r.database == answers.database
    ensures r.useAuth == answers.useAuth && r.authType == answers.authType && r.name == answers.name
  {
    ProjectResponses(answers.name, answers.language, answers.framework, answers.database, answers.useAuth, answers.authType,
                     None, None, [])
  }

  /** `{ ...initialResponses, ...detailedResponses }`: the two new answers
      overwrite `purpose` and `features`; every other field is kept. */
  function AskDetailedQuestions(initial: ProjectResponses, detailed: DetailedAnswers): (r: ProjectResponses)
    ensures r.purpose == Some(detailed.purpose) && r.features == Some(detailed.features)
    ensures r.(purpose := initial.purpose, features := initial.features) == initial
  {
    ProjectResponses(initial.name, initial.language, initial.framework, initial.database, initial.useAuth, initial.authType,
                     Some(detailed.purpose), Some(detailed.features), initial.additionalDetails)
  }

  /** The `Authentication:` line of the analysis request: the auth label when
      authentication is wanted, otherwise `None` (which is not a label). */
  function AuthenticationText(r: ProjectResponses): (t: string)
    ensures t == "None" <==> !r.useAuth
    ensures r.useAuth ==> t in AuthTypeChoices() && t == AuthTypeLabel(r.authType)
  {
    if r.useAuth then AuthTypeLabel(r.authType) else "None"
  }

  // ---------------------------------------------------------------------
  // Follow-up questions

  datatype RefinementQuestion = RefinementQuestion(category: string, question: string)

  /** What the follow-up request produced: the call itself rejected, its text
      did not parse, or it parsed to a list of questions. */
  datatype FollowUpReply = CallFailed | Unparseable | Parsed(questions: seq<RefinementQuestion>)

  const FallbackQuestion: RefinementQuestion :=
    RefinementQuestion("General", "What additional details would you like to share about your project?")

  /** `generateFollowUpQuestions`: a rejected call yields nothing (the error
      propagates); unparseable text yields exactly the one `General` fallback
      question; parsed text is returned as it is, whatever its length. */
  function GenerateFollowUpQuestions(reply: FollowUpReply): (r: Option<seq<RefinementQuestion>>)
    ensures r.None? <==> reply.CallFailed?
    ensures reply.Unparseable? ==> r.value == [FallbackQuestion] && r.value[0].category == "General"
    ensures reply.Parsed? ==> r.value == reply.questions
  {
    match reply
    case CallFailed => None
    case Unparseable => Some([FallbackQuestion])
    case Parsed(questions) => Some(questions)
  }

  /** The recorded form of one answered question. */
  function FollowUpRecord(q: RefinementQuestion, answer: string): string {
    "[" + q.category + "] " + q.question + "\nAnswer: " + answer
  }

  /** A record ends with the answer exactly as typed (not trimmed) and begins
      with the bracketed category and the question. */
  lemma {:induction false} RecordKeepsAnswer(q: RefinementQuestion, answer: string)
    ensures var r := FollowUpRecord(q, answer);
      && |r| == |q.category| + |q.question| + |answer| + 12
      && r[|r| - |answer|..] == answer
      && r[..|q.category| + 3] == "[" + q.category + "] "
  {
    var r := FollowUpRecord(q, answer);
    var head := "[" + q.category + "] " + q.question + "\nAnswer: ";
    assert r == head + answer;
    assert head == ("[" + q.category + "] ") + (q.question + "\nAnswer: ");
  }

  /** Positions of the answers kept by `askFollowUpQuestions`, in increasing
      order: exactly those whose `trim()` is non-empty. */
  function KeptIndices(answers: seq<string>): (r: seq<nat>)
    ensures forall i :: i in r <==> 0 <= i < |answers| && !IsBlank(answers[i])
    ensures forall j :: 0 <= j < |r| ==> r[j] < |answers|
    ensures forall j, k :: 0 <= j < k < |r| ==> r[j] < r[k]
    ensures |r| <= |answers|
  {
    KeptPositions(Blanks(answers))
  }

  /** Whether each answer is blank. */
  function Blanks(answers: seq<string>): (b: seq<bool>)
    ensures |b| == |answers|
    ensures forall i :: 0 <= i < |answers| ==> b[i] == IsBlank(answers[i])
  {
    seq(|answers|, i requires 0 <= i < |answers| => IsBlank(answers[i]))
  }

  /** The positions whose flag is false, in increasing order. */
  function KeptPositions(blank: seq<bool>): (r: seq<nat>)
    ensures forall i :: i in r <==> 0 <= i < |blank| && !blank[i]
    ensures forall j :: 0 <= j < |r| ==> r[j] < |blank|
    ensures forall j, k :: 0 <= j < k < |r| ==> r[j] < r[k]
    ensures |r| <= |blank|
  {
    if |blank| == 0 then []
    else
      var n := |blank| - 1;
      var r := KeptPositions(blank[..n]);
      var r' := if blank[n] then r else r + [n];
      KeptStep(blank, r, r');
      r'
  }

  /** Extending the flags by one keeps the earlier positions' verdicts and
      adds the last position exactly when its flag is false. */
  lemma {:induction false} KeptStep(blank: seq<bool>, r: seq<nat>, r': seq<nat>)
    requires |blank| > 0
    requires var n := |blank| - 1;
      && (forall i :: i in r <==> 0 <= i < n && !blank[..n][i])
      && (forall j :: 0 <= j < |r| ==> r[j] < n)
      && (forall j, k :: 0 <= j < k < |r| ==> r[j] < r[k])
      && r' == if blank[n] then r else r + [n]
    ensures forall i :: i in r' <==> 0 <= i < |blank| && !blank[i]
    ensures forall j :: 0 <= j < |r'| ==> r'[j] < |blank|
    ensures forall j, k :: 0 <= j < k < |r'| ==> r'[j] < r'[k]
  {
    var n := |blank| - 1;
    forall i | 0 <= i < n
      ensures blank[..n][i] == blank[i]
    {
    }
  }

  /** `askFollowUpQuestions`: one record per question whose answer is not
      blank, in question order, pairing each question with its own answer. */
  function AskFollowUpQuestions(questions: seq<RefinementQuestion>, answers: seq<string>): (r: seq<string>)
    requires |answers| == |questions|
    ensures |r| == |KeptIndices(answers)| <= |questions|
    ensures forall j :: 0 <= j < |r| ==>
      var i := KeptIndices(answers)[j]; r[j] == FollowUpRecord(questions[i], answers[i])
  {
    if |questions| == 0 then []
    else
      var n := |questions| - 1;
      var r := AskFollowUpQuestions(questions[..n], answers[..n]);
      KeptPrefix(answers);
      if IsBlank(answers[n]) then r
      else r + [FollowUpRecord(questions[n], answers[n])]
  }

  /** `KeptIndices` grows by the last position when, and only when, the last
      answer is not blank. */
  lemma {:induction false} KeptPrefix(answers: seq<string>)
    requires |answers| > 0
    ensures var n := |answers| - 1;
      KeptIndices(answers) == KeptIndices(answers[..n]) + (if IsBlank(answers[n]) then [] else [n])
  {
    var n := |answers| - 1;
    assert Blanks(answers[..n]) == Blanks(answers)[..n];
  }

  // ---------------------------------------------------------------------
  // Refinement rounds

  /** The inputs one round consumes: the follow-up reply, the user's answer to
      each resulting question, the re-analysis result, and the answer to
      "provide more details?". */
  datatype RoundInput = RoundInput(followUp: FollowUpReply, answers: seq<string>, analysis: Option<string>, continueRefining: bool)

  /** The round supplies one answer per question it asks. */
  predicate RoundFits(r: RoundInput) {
    match GenerateFollowUpQuestions(r.followUp)
    case None => true
    case Some(qs) => |r.answers| == |qs|
  }

  predicate RoundsFit(rounds: seq<RoundInput>) {
    forall i :: 0 <= i < |rounds| ==> RoundFits(rounds[i])
  }

  /** Neither service call of the round rejects. */
  predicate RoundSucceeds(r: RoundInput) {
    !r.followUp.CallFailed? && r.analysis.Some?
  }

  /** The records one round contributes. */
  function RoundDetails(r: RoundInput): seq<string>
    requires RoundFits(r)
  {
    match GenerateFollowUpQuestions(r.followUp)
    case None => []
    case Some(qs) => AskFollowUpQuestions(qs, r.answers)
  }

  /** The records of several rounds, in round order. */
  function AllDetails(rounds: seq<RoundInput>): seq<string>
    requires RoundsFit(rounds)
  {
    if |rounds| == 0 then [] else RoundDetails(rounds[0]) + AllDetails(rounds[1..])
  }

  /** `responses.additionalDetails = [...responses.additionalDetails, ...newDetails]`:
      the old details stay a prefix, followed by the round's records, and no
      other field changes. */
  function RefinementRound(responses: ProjectResponses, r: RoundInput): (u: ProjectResponses)
    requires RoundFits(r)
    ensures u.(additionalDetails := responses.additionalDetails) == responses
    ensures responses.additionalDetails <= u.additionalDetails
    ensures u.additionalDetails[|responses.additionalDetails|..] == RoundDetails(r)
  {
    responses.(additionalDetails := responses.additionalDetails + RoundDetails(r))
  }

  datatype RefineResult = Refined(responses: ProjectResponses, rounds: nat) | RefineFailed | RefineUnfinished

  /** The first `n` rounds all succeed and the user continues after each of
      them but the last. */
  predicate StopsAfter(rounds: seq<RoundInput>, n: nat) {
    && 1 <= n <= |rounds|
    && (forall i :: 0 <= i < n ==> RoundSucceeds(rounds[i]))
    && (forall i :: 0 <= i < n ==> (rounds[i].continueRefining <==> i < n - 1))
  }

  /** `responses` with the records of `rounds` appended to its details. */
  function Extended(responses: ProjectResponses, rounds: seq<RoundInput>): (u: ProjectResponses)
    requires RoundsFit(rounds)
    ensures u.(additionalDetails := responses.additionalDetails) == responses
    ensures responses.additionalDetails <= u.additionalDetails
  {
    responses.(additionalDetails := responses.additionalDetails + AllDetails(rounds))
  }

  /** Refinement of `responses` over `rounds` finishes after the first `n`
      rounds with `res`: those rounds all succeed, the user declines exactly
      on the last of them, and `res` is `responses` with their records
      appended. */
  predicate RefinesTo(responses: ProjectResponses, rounds: seq<RoundInput>, n: nat, res: ProjectResponses) {
    && RoundsFit(rounds)
    && StopsAfter(rounds, n)
    && (RoundsFitPrefix(rounds, n); res == Extended(responses, rounds[..n]))
  }

  lemma {:induction false} RoundsFitPrefix(rounds: seq<RoundInput>, n: nat)
    requires RoundsFit(rounds) && n <= |rounds|
    ensures RoundsFit(rounds[..n])
  {
    assert forall i :: 0 <= i < n ==> rounds[..n][i] == rounds[i];
  }

  lemma {:induction false} RoundsFitTail(rounds: seq<RoundInput>)
    requires RoundsFit(rounds) && |rounds| > 0
    ensures RoundsFit(rounds[1..])
  {
    assert forall i :: 0 <= i < |rounds| - 1 ==> rounds[1..][i] == rounds[i + 1];
  }

  /** `iterativeRefinement`: rounds run until the user declines to continue.
      A successful result used the first `rounds` inputs, all of which
      succeeded, all but the last continuing, and holds the responses with
      exactly those rounds' records appended in round order. A service
      failure yields `RefineFailed`; running out of inputs while the user
      keeps continuing yields `RefineUnfinished`. */
  function IterativeRefinement(responses: ProjectResponses, rounds: seq<RoundInput>): (r: RefineResult)
    requires RoundsFit(rounds)
    ensures r.Refined? ==> RefinesTo(responses, rounds, r.rounds, r.responses)
    decreases |rounds|
  {
    if |rounds| == 0 then RefineUnfinished
    else if !RoundSucceeds(rounds[0]) then RefineFailed
    else if !rounds[0].continueRefining then
      FirstRoundStops(responses, rounds);
      Refined(RefinementRound(responses, rounds[0]), 1)
    else
      RoundsFitTail(rounds);
      var rest := IterativeRefinement(RefinementRound(responses, rounds[0]), rounds[1..]);
      if rest.Refined? then
        FirstRoundContinues(responses, rounds, rest.responses, rest.rounds);
        Refined(rest.responses, rest.rounds + 1)
      else rest
  }

  /** A first round that succeeds and declines is a run of one round. */
  lemma {:induction false} FirstRoundStops(responses: ProjectResponses, rounds: seq<RoundInput>)
    requires RoundsFit(rounds) && |rounds| > 0
    requires RoundSucceeds(rounds[0]) && !rounds[0].continueRefining
    ensures RefinesTo(responses, rounds, 1, RefinementRound(responses, rounds[0]))
  {
    var one := rounds[..1];
    assert one[0] == rounds[0] && one[1..] == [];
    assert AllDetails(one) == RoundDetails(rounds[0]);
  }

  /** A first round that succeeds and continues, followed by a run of `n`
      rounds, is a run of `n + 1` rounds with all their records. */
  lemma {:induction false} FirstRoundContinues(responses: ProjectResponses, rounds: seq<RoundInput>, res: ProjectResponses, n: nat)
    requires RoundsFit(rounds) && |rounds| > 0
    requires RoundSucceeds(rounds[0]) && rounds[0].continueRefining
    requires RefinesTo(RefinementRound(responses, rounds[0]), rounds[1..], n, res)
    ensures RefinesTo(responses, rounds, n + 1, res)
  {
    ExtendedStep(responses, rounds, n);
    StopsAfterStep(rounds, n);
  }

  /** Appending the first round and then the next `n` equals appending the
      first `n + 1` rounds. */
  lemma {:induction false} ExtendedStep(responses: ProjectResponses, rounds: seq<RoundInput>, n: nat)
    requires RoundsFit(rounds) && n < |rounds|
    ensures Extended(RefinementRound(responses, rounds[0]), rounds[1..][..n]) == Extended(responses, rounds[..n + 1])
  {
    AllDetailsStep(rounds, n);
    var d := responses.additionalDetails;
    var first := RoundDetails(rounds[0]);
    var rest := AllDetails(rounds[1..][..n]);
    assert (d + first) + rest == d + (first + rest);
  }

  /** The records of the first `n + 1` rounds are the first round's followed
      by those of the next `n`. */
  lemma {:induction false} AllDetailsStep(rounds: seq<RoundInput>, n: nat)
    requires RoundsFit(rounds) && n < |rounds|
    ensures AllDetails(rounds[..n + 1]) == RoundDetails(rounds[0]) + AllDetails(rounds[1..][..n])
  {
    var prefix := rounds[..n + 1];
    assert prefix[0] == rounds[0];
    assert prefix[1..] == rounds[1..][..n];
  }

  /** A first round that succeeds and continues, followed by a run of `n`
      rounds, is a run of `n + 1` rounds. */
  lemma {:induction false} StopsAfterStep(rounds: seq<RoundInput>, n: nat)
    requires |rounds| > 0 && RoundSucceeds(rounds[0]) && rounds[0].continueRefining
    requires StopsAfter(rounds[1..], n)
    ensures StopsAfter(rounds, n + 1)
  {
    assert forall i :: 1 <= i < n + 1 ==> rounds[i] == rounds[1..][i - 1];
  }

  /** If the first `n` rounds all succeed and the user first declines on
      round `n`, refinement returns the old details followed by exactly those
      rounds' records, in round order. */
  lemma {:induction false} RefinementStopsAtDecline(responses: ProjectResponses, rounds: seq<RoundInput>, n: nat)
    requires RoundsFit(rounds)
    requires StopsAfter(rounds, n)
    ensures IterativeRefinement(responses, rounds) == Refined(Extended(responses, rounds[..n]), n)
    decreases n
  {
    if n > 1 {
      var updated := RefinementRound(responses, rounds[0]);
      assert StopsAfter(rounds[1..], n - 1) by {
        assert forall i :: 0 <= i < n - 1 ==> rounds[1..][i] == rounds[i + 1];
      }
      RefinementStopsAtDecline(updated, rounds[1..], n - 1);
      ExtendedStep(responses, rounds, n - 1);
    } else {
      ExtendedStep(responses, rounds, 0);
    }
  }

  /** Inputs after the round the user declines on play no part. */
  lemma {:induction false} LaterRoundsIgnored(responses: ProjectResponses, rounds: seq<RoundInput>, n: nat)
    requires RoundsFit(rounds)
    requires StopsAfter(rounds, n)
    ensures IterativeRefinement(responses, rounds) == IterativeRefinement(responses, rounds[..n])
  {
    var prefix := rounds[..n];
    assert prefix[..n] == prefix;
    assert forall i :: 0 <= i < n ==> prefix[i] == rounds[i];
    RefinementStopsAtDecline(responses, rounds, n);
    RefinementStopsAtDecline(responses, prefix, n);
  }

  /** Round `k` is the first whose follow-up or analysis call rejects, and
      the user continued after every round before it. */
  predicate FailsAt(rounds: seq<RoundInput>, k: int) {
    && 0 <= k < |rounds|
    && !RoundSucceeds(rounds[k])
    && forall i :: 0 <= i < k ==> RoundSucceeds(rounds[i]) && rounds[i].continueRefining
  }

  /** Every supplied round succeeds and the user continues after each. */
  predicate ContinuesThrough(rounds: seq<RoundInput>) {
    forall i :: 0 <= i < |rounds| ==> RoundSucceeds(rounds[i]) && rounds[i].continueRefining
  }

  /** A rejected follow-up or analysis call rejects the whole refinement:
      the result is `RefineFailed` exactly when some round that is reached
      has a rejected call. */
  lemma {:induction false} RefinementFails(responses: ProjectResponses, rounds: seq<RoundInput>)
    requires RoundsFit(rounds)
    ensures IterativeRefinement(responses, rounds).RefineFailed? <==> exists k :: FailsAt(rounds, k)
    decreases |rounds|
  {
    if |rounds| == 0 {
    } else if !RoundSucceeds(rounds[0]) {
      assert FailsAt(rounds, 0);
    } else if !rounds[0].continueRefining {
      assert !FailsAt(rounds, 0);
      assert forall k :: k > 0 ==> !FailsAt(rounds, k);
    } else {
      RoundsFitTail(rounds);
      var next := RefinementRound(responses, rounds[0]);
      RefinementFails(next, rounds[1..]);
      assert IterativeRefinement(responses, rounds).RefineFailed? <==> IterativeRefinement(next, rounds[1..]).RefineFailed?;
      if k' :| FailsAt(rounds[1..], k') {
        FailsAtShift(rounds, k' + 1);
      }
      if k :| FailsAt(rounds, k) {
        assert k != 0;
        FailsAtShift(rounds, k);
      }
    }
  }

  /** Past a first round that succeeds and continues, failing at round `k`
      is failing at round `k - 1` of the rest. */
  lemma {:induction false} FailsAtShift(rounds: seq<RoundInput>, k: int)
    requires |rounds| > 0 && RoundSucceeds(rounds[0]) && rounds[0].continueRefining && k >= 1
    ensures FailsAt(rounds, k) <==> FailsAt(rounds[1..], k - 1)
  {
    assert forall i :: 0 <= i < |rounds| - 1 ==> rounds[1..][i] == rounds[i + 1];
    if FailsAt(rounds[1..], k - 1) {
      forall i | 0 <= i < k
        ensures RoundSucceeds(rounds[i]) && rounds[i].continueRefining
      {
        if i > 0 { assert rounds[i] == rounds[1..][i - 1]; }
      }
    }
  }

  /** The refinement runs out of inputs exactly when every supplied round
      succeeds and the user keeps continuing. */
  lemma {:induction false} RefinementRunsOut(responses: ProjectResponses, rounds: seq<RoundInput>)
    requires RoundsFit(rounds)
    ensures IterativeRefinement(responses, rounds).RefineUnfinished? <==> ContinuesThrough(rounds)
    decreases |rounds|
  {
    if |rounds| > 0 {
      ContinuesShift(rounds);
      if RoundSucceeds(rounds[0]) && rounds[0].continueRefining {
        RoundsFitTail(rounds);
        RefinementRunsOut(RefinementRound(responses, rounds[0]), rounds[1..]);
      }
    }
  }

  /** Continuing through all rounds is continuing after the first and
      through the rest. */
  lemma {:induction false} ContinuesShift(rounds: seq<RoundInput>)
    requires |rounds| > 0
    ensures ContinuesThrough(rounds) <==>
      RoundSucceeds(rounds[0]) && rounds[0].continueRefining && ContinuesThrough(rounds[1..])
  {
    assert forall i :: 0 <= i < |rounds| - 1 ==> rounds[1..][i] == rounds[i + 1];
    if RoundSucceeds(rounds[0]) && rounds[0].continueRefining && ContinuesThrough(rounds[1..]) {
      forall i | 0 <= i < |rounds|
        ensures RoundSucceeds(rounds[i]) && rounds[i].continueRefining
      {
        if i > 0 { assert rounds[i] == rounds[1..][i - 1]; }
      }
    }
  }

  // ---------------------------------------------------------------------
  // Whole setup

  /** The three choices of the `select` prompt shown after a decline:
      "Start over with new specifications", "Continue refining current
      specifications" and "Exit setup". A select prompt answers with one of
      its choices, so the answer is one of these three. */
  datatype ReviewAction = StartOver | ContinueRefining | ExitSetup

  /** The inputs after the initial analysis: refinement rounds, the final
      analysis, the proceed answer and, when declined, the chosen action. */
  datatype Review = Review(rounds: seq<RoundInput>, finalAnalysis: Option<string>, proceed: bool, action: ReviewAction)

  /** The inputs of one pass through `runProjectSetup`. */
  datatype Pass = Pass(initial: InitialAnswers, detailed: DetailedAnswers, initialAnalysis: Option<string>, review: Review)

  predicate PassesFit(passes: seq<Pass>) {
    forall i :: 0 <= i < |passes| ==> RoundsFit(passes[i].review.rounds)
  }

  /** The outcome of `runProjectSetup`: confirmed with the responses and the
      final analysis, `{ confirmed: false }`, a rejected service call
      (rethrown), or no outcome within the supplied inputs. */
  datatype SetupResult = Confirmed(responses: ProjectResponses, analysis: string) | NotConfirmed | SetupFailed | Unfinished

  /** Where one review leaves the pass. */
  datatype Turn = Decided(result: SetupResult) | StartOverChosen | ContinueChosen(responses: ProjectResponses)

  /** The responses a pass has collected before its initial analysis. */
  function PassStart(s: Pass): (r: ProjectResponses)
    ensures r.additionalDetails == []
  {
    AskDetailedQuestions(AskInitialQuestions(s.initial), s.detailed)
  }

  /** Steps 4 to 6 on `responses`: refine, analyse once more, confirm, and on
      a decline read the action. Only a proceed confirms; the responses it
      carries, and those a continue request carries, are `responses` refined.
      A rejected service call ends the pass as `SetupFailed`, and each of the
      three choices is reached only after a decline that followed a
      successful refinement and final analysis. */
  function ReviewTurn(responses: ProjectResponses, v: Review): (t: Turn)
    requires RoundsFit(v.rounds)
    ensures t.Decided? && t.result.Confirmed? <==>
      IterativeRefinement(responses, v.rounds).Refined? && v.finalAnalysis.Some? && v.proceed
    ensures t.Decided? && t.result.Confirmed? ==>
      t.result == Confirmed(IterativeRefinement(responses, v.rounds).responses, v.finalAnalysis.value)
    ensures t.ContinueChosen? ==>
      IterativeRefinement(responses, v.rounds).Refined? && t.responses == IterativeRefinement(responses, v.rounds).responses
    ensures t.ContinueChosen? ==> v.finalAnalysis.Some? && !v.proceed && v.action.ContinueRefining?
    ensures t.StartOverChosen? <==>
      IterativeRefinement(responses, v.rounds).Refined? && v.finalAnalysis.Some? && !v.proceed && v.action.StartOver?
    ensures t == Decided(SetupFailed) <==>
      IterativeRefinement(responses, v.rounds).RefineFailed? ||
      (IterativeRefinement(responses, v.rounds).Refined? && v.finalAnalysis.None?)
    ensures t == Decided(NotConfirmed) <==>
      IterativeRefinement(responses, v.rounds).Refined? && v.finalAnalysis.Some? && !v.proceed && v.action.ExitSetup?
    ensures t == Decided(Unfinished) <==> IterativeRefinement(responses, v.rounds).RefineUnfinished?
  {
    match IterativeRefinement(responses, v.rounds)
    case RefineFailed => Decided(SetupFailed)
    case RefineUnfinished => Decided(Unfinished)
    case Refined(refined, _) =>
      if v.finalAnalysis.None? then Decided(SetupFailed)
      else if v.proceed then Decided(Confirmed(refined, v.finalAnalysis.value))
      else if v.action.ContinueRefining? then ContinueChosen(refined)
      else if v.action.StartOver? then StartOverChosen
      else Decided(NotConfirmed)
  }

  /** The pass `s`, started afresh, refines to exactly the responses `r` carries. */
  predicate ConfirmedBy(s: Pass, r: SetupResult)
    requires RoundsFit(s.review.rounds)
    requires r.Confirmed?
  {
    var refined := IterativeRefinement(PassStart(s), s.review.rounds);
    refined.Refined? && refined.responses == r.responses
  }

  /** `runProjectSetup` as written: both "Continue refining" and "Start over"
      call `runProjectSetup()` afresh, so a confirmed result is always one
      pass's own fresh responses, refined within that pass alone. A rejected
      service call in the first pass is rethrown: the run ends as
      `SetupFailed` and no later pass is reached. */
  function RunProjectSetup(passes: seq<Pass>): (r: SetupResult)
    requires PassesFit(passes)
    ensures r.Confirmed? ==> exists k :: 0 <= k < |passes| && ConfirmedBy(passes[k], r)
    ensures |passes| == 0 ==> r == Unfinished
    ensures |passes| > 0 && passes[0].initialAnalysis.None? ==> r == SetupFailed
    ensures (|passes| > 0 && passes[0].initialAnalysis.Some? &&
             ReviewTurn(PassStart(passes[0]), passes[0].review) == Decided(SetupFailed)) ==> r == SetupFailed
    ensures (|passes| > 0 && passes[0].initialAnalysis.Some? &&
             ReviewTurn(PassStart(passes[0]), passes[0].review) == Decided(Unfinished)) ==> r == Unfinished
    decreases |passes|
  {
    if |passes| == 0 then Unfinished
    else
      var s := passes[0];
      if s.initialAnalysis.None? then SetupFailed
      else
        match ReviewTurn(PassStart(s), s.review)
        case Decided(result) => result
        case ContinueChosen(_) => RunProjectSetup(passes[1..])
        case StartOverChosen => RunProjectSetup(passes[1..])
  }

  /** A pass whose service calls succeed and whose user proceeds confirms with
      the refined responses and the final analysis. */
  lemma {:induction false} ProceedConfirms(passes: seq<Pass>)
    requires PassesFit(passes) && |passes| > 0
    requires passes[0].initialAnalysis.Some? && passes[0].review.finalAnalysis.Some?
    requires IterativeRefinement(PassStart(passes[0]), passes[0].review.rounds).Refined?
    requires passes[0].review.proceed
    ensures RunProjectSetup(passes) ==
      Confirmed(IterativeRefinement(PassStart(passes[0]), passes[0].review.rounds).responses,
                passes[0].review.finalAnalysis.value)
  {
  }

  /** After a decline, "Start over" and "Continue refining" both hand over to
      the next pass. */
  lemma {:induction false} RestartChoicesMoveOn(passes: seq<Pass>)
    requires PassesFit(passes) && |passes| > 0
    requires passes[0].initialAnalysis.Some? && passes[0].review.finalAnalysis.Some?
    requires IterativeRefinement(PassStart(passes[0]), passes[0].review.rounds).Refined?
    requires !passes[0].review.proceed && !passes[0].review.action.ExitSetup?
    ensures RunProjectSetup(passes) == RunProjectSetup(passes[1..])
  {
    var s := passes[0];
    var t := ReviewTurn(PassStart(s), s.review);
    assert t == if s.review.action.ContinueRefining? then ContinueChosen(t.responses) else StartOverChosen;
  }

  /** After a decline, "Exit setup" ends the setup unconfirmed. */
  lemma {:induction false} ExitEndsUnconfirmed(passes: seq<Pass>)
    requires PassesFit(passes) && |passes| > 0
    requires passes[0].initialAnalysis.Some? && passes[0].review.finalAnalysis.Some?
    requires IterativeRefinement(PassStart(passes[0]), passes[0].review.rounds).Refined?
    requires !passes[0].review.proceed && passes[0].review.action.ExitSetup?
    ensures RunProjectSetup(passes) == NotConfirmed
  {
    var s := passes[0];
    assert ReviewTurn(PassStart(s), s.review) == Decided(NotConfirmed);
  }

  /** A pass that ends with "Continue refining" is forgotten: the outcome is
      that of the passes after it alone. */
  lemma {:induction false} ContinueRestartsLikeStartOver(passes: seq<Pass>)
    requires PassesFit(passes) && |passes| > 0
    requires passes[0].initialAnalysis.Some?
    requires ReviewTurn(PassStart(passes[0]), passes[0].review).ContinueChosen?
    ensures RunProjectSetup(passes) == RunProjectSetup(passes[1..])
  {
    RestartChoicesMoveOn(passes);
  }

  /** Replacing the "Continue refining" choice of the first pass by "Start
      over" changes nothing. */
  lemma {:induction false} ContinueEqualsStartOver(passes: seq<Pass>, restarted: seq<Pass>)
    requires PassesFit(passes) && |passes| > 0
    requires passes[0].initialAnalysis.Some?
    requires ReviewTurn(PassStart(passes[0]), passes[0].review).ContinueChosen?
    requires |restarted| == |passes| && restarted[1..] == passes[1..]
    requires restarted[0] == passes[0].(review := passes[0].review.(action := StartOver))
    ensures PassesFit(restarted)
    ensures RunProjectSetup(passes) == RunProjectSetup(restarted)
  {
    RestartedFits(passes, restarted);
    ContinueRestartsLikeStartOver(passes);
    RestartChoicesMoveOn(restarted);
  }

  /** Changing only the first pass's review action keeps every pass fitting. */
  lemma {:induction false} RestartedFits(passes: seq<Pass>, restarted: seq<Pass>)
    requires PassesFit(passes) && |passes| > 0
    requires |restarted| == |passes| && restarted[1..] == passes[1..]
    requires restarted[0].review.rounds == passes[0].review.rounds
    ensures PassesFit(restarted)
  {
    forall i | 0 <= i < |restarted|
      ensures RoundsFit(restarted[i].review.rounds)
    {
      if i > 0 {
        assert restarted[i] == restarted[1..][i - 1] == passes[1..][i - 1] == passes[i];
      }
    }
  }

  /** No later pass is reached by choosing "Start over". */
  predicate NoStartOver(passes: seq<Pass>) {
    forall i :: 0 <= i < |passes| ==> !passes[i].review.action.StartOver?
  }

  /** `responses` grown only by follow-up records: every other answer kept and
      the earlier records still first. */
  predicate Grows(responses: ProjectResponses, later: ProjectResponses) {
    responses.additionalDetails <= later.additionalDetails &&
    later.(additionalDetails := responses.additionalDetails) == responses
  }

  /** The intended `runProjectSetup`: "Continue refining" resumes refinement
      on the responses it has, and only "Start over" asks everything again. */
  function RunProjectSetupIntended(passes: seq<Pass>): (r: SetupResult)
    requires PassesFit(passes)
    ensures r.Confirmed? && |passes| > 0 && NoStartOver(passes) ==>
      Grows(PassStart(passes[0]), r.responses)
    decreases |passes|, 1
  {
    if |passes| == 0 then Unfinished
    else
      var s := passes[0];
      if s.initialAnalysis.None? then SetupFailed
      else
        var t := ReviewTurn(PassStart(s), s.review);
        TurnGrows(PassStart(s), s.review);
        NoStartOverTail(passes);
        ResumeAfter(PassStart(s), t, passes[1..])
  }

  /** Resumes refinement of `responses` with the next pass's review inputs. */
  function ContinueFrom(responses: ProjectResponses, passes: seq<Pass>): (r: SetupResult)
    requires PassesFit(passes)
    ensures r.Confirmed? && NoStartOver(passes) ==> Grows(responses, r.responses)
    decreases |passes|, 0
  {
    if |passes| == 0 then Unfinished
    else
      var t := ReviewTurn(responses, passes[0].review);
      TurnGrows(responses, passes[0].review);
      NoStartOverTail(passes);
      ResumeAfter(responses, t, passes[1..])
  }

  /** Where the intended flow goes after a review of `responses` decided `t`;
      `rest` are the passes still to come. */
  function ResumeAfter(responses: ProjectResponses, t: Turn, rest: seq<Pass>): (r: SetupResult)
    requires PassesFit(rest)
    requires t.Decided? && t.result.Confirmed? ==> Grows(responses, t.result.responses)
    requires t.ContinueChosen? ==> Grows(responses, t.responses)
    ensures r.Confirmed? && !t.StartOverChosen? && NoStartOver(rest) ==> Grows(responses, r.responses)
    decreases |rest|, 2
  {
    match t
    case Decided(result) => result
    case ContinueChosen(refined) =>
      var r := ContinueFrom(refined, rest);
      if r.Confirmed? && NoStartOver(rest) then GrowsTransitive(responses, refined, r.responses); r else r
    case StartOverChosen => RunProjectSetupIntended(rest)
  }

  lemma {:induction false} GrowsTransitive(a: ProjectResponses, b: ProjectResponses, c: ProjectResponses)
    requires Grows(a, b) && Grows(b, c)
    ensures Grows(a, c)
  {
    assert c.(additionalDetails := a.additionalDetails) == b.(additionalDetails := a.additionalDetails);
  }

  /** A review only ever grows the responses it refines. */
  lemma {:induction false} TurnGrows(responses: ProjectResponses, v: Review)
    requires RoundsFit(v.rounds)
    ensures var t := ReviewTurn(responses, v);
      (t.Decided? && t.result.Confirmed? ==> Grows(responses, t.result.responses)) &&
      (t.ContinueChosen? ==> Grows(responses, t.responses))
  {
    var refined := IterativeRefinement(responses, v.rounds);
    if refined.Refined? {
      assert Grows(responses, refined.responses);
    }
  }

  lemma {:induction false} NoStartOverTail(passes: seq<Pass>)
    requires |passes| > 0
    ensures NoStartOver(passes) <==>
      !passes[0].review.action.StartOver? && NoStartOver(passes[1..])
  {
    assert forall i :: 0 <= i < |passes| - 1 ==> passes[1..][i] == passes[i + 1];
  }

  /** In the intended flow a pass that ends with "Continue refining" hands its
      refined responses to the next pass, and unless a later pass starts over,
      any confirmed responses still hold every record gathered so far. */
  lemma {:induction false} ContinueKeepsRefinement(passes: seq<Pass>)
    requires PassesFit(passes) && |passes| > 0
    requires passes[0].initialAnalysis.Some?
    requires ReviewTurn(PassStart(passes[0]), passes[0].review).ContinueChosen?
    ensures var refined := ReviewTurn(PassStart(passes[0]), passes[0].review).responses;
      RunProjectSetupIntended(passes) == ContinueFrom(refined, passes[1..])
    ensures var refined := ReviewTurn(PassStart(passes[0]), passes[0].review).responses;
      var r := RunProjectSetupIntended(passes);
      r.Confirmed? && NoStartOver(passes[1..]) ==> Grows(refined, r.responses)
  {
  }
}
