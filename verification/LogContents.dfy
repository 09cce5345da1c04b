/** What the steps of a run's log say, in terms of what the outside answered, and so what the ledger
    built from them tells the reflector.
 */
module LogContents {
  import opened Wrappers
  import opened Json
  import opened RunLog
  import opened Query
  import opened ResumeSource
  import opened Shortlist
  import opened LogGrammar
  import opened RunRecord
  import opened Rounds
  import opened Progress
  import opened OutsideWorld
  import opened Sorting

  /** The payload has this value under this key. */
  ghost predicate Has(o: Object, key: string, v: Value) {
    Json.Lookup(o, key) == Some(v)
  }

  /** A field is found under its key when no earlier field has it. */
  lemma {:induction false} FieldAt(o: Object, i: nat)
    requires i < |o| && forall j :: 0 <= j < i ==> o[j].key != o[i].key
    ensures Has(o, o[i].key, o[i].value)
  {
    if i > 0 { FieldAt(o[1..], i - 1); }
  }

  // ---------------------------------------------------------------------------------------
  // What each kind of step says of its round
  // ---------------------------------------------------------------------------------------

  ghost predicate StrategySays(w: Scenario, o: Object) {
    && w.outside.strategy.Success?
    && var output: StrategyOutput := w.outside.strategy.value;
    && Has(o, "mustRequirements", Arr(Strings(output.mustRequirements)))
    && Has(o, "coreRequirements", Arr(Strings(output.coreRequirements)))
    && Has(o, "bonusRequirements", Arr(Strings(output.bonusRequirements)))
    && Has(o, "excludeSignals", Arr(Strings(output.excludeSignals)))
    && Has(o, "round1Query", w.encoding.query(output.round1Query))
  }

  ghost predicate SearchSays(w: Scenario, r: nat, o: Object) {
    && StrategyOf(w, r).Success? && w.outside.pages(r).Success?
    && var strategy, page := StrategyOf(w, r).value, w.outside.pages(r).value;
    && Has(o, "roundQuery", w.encoding.query(strategy.query))
    && Has(o, "normalizedQuery", w.encoding.strategy(strategy))
    && Has(o, "pageNo", Int(page.pageNo)) && Has(o, "pageSize", Int(page.pageSize)) && Has(o, "total", Int(page.total))
    && Has(o, "returnedCount", Int(|page.candidates|))
    && Has(o, "candidateIds", Arr(Strings(ExternalIds(page.candidates))))
    && Has(o, "errorCode", if page.errorCode.Some? then Str(page.errorCode.value) else Null)
    && Has(o, "errorMessage", if page.errorMessage.Some? then Str(page.errorMessage.value) else Null)
  }

  /** The ids of a round's page that were not admitted. */
  function DuplicatesIn(w: Scenario, r: nat): seq<string> {
    if r == 0 then [] else Duplicates(SeenBy(w, r - 1), PageOf(w, r).candidates)
  }

  ghost predicate DedupeSays(w: Scenario, r: nat, o: Object) {
    && r > 0
    && Has(o, "admittedResumeIds", Arr(Strings(ExternalIds(NewIn(w, r)))))
    && Has(o, "duplicateResumeIds", Arr(Strings(DuplicatesIn(w, r))))
    && Has(o, "seenResumeCount", Int(|SeenBy(w, r - 1)| + |NewIn(w, r)|))
  }

  /** One analysed candidate as a log entry shows it. */
  ghost predicate ShowsAnalysis(v: Value, x: Shortlisted) {
    && v.Obj?
    && Has(v.fields, "candidateId", Str(x.candidateId))
    && Has(v.fields, "externalIdentityId", Str(x.candidate.externalId))
    && Has(v.fields, "name", Str(x.candidate.name))
    && Has(v.fields, "score", Real(x.score)) && Has(v.fields, "reason", Str(x.reason))
  }

  ghost predicate ShowsAnalyses(items: seq<Value>, batch: seq<Shortlisted>) {
    |items| == |batch| && forall i :: 0 <= i < |batch| ==> ShowsAnalysis(items[i], batch[i])
  }

  /** An analysis step lists the batch of its round, entry by entry. */
  ghost predicate AnalysisSays(w: Scenario, r: nat, o: Object) {
    && Json.Lookup(o, "analyses").Some? && Json.Lookup(o, "analyses").value.Arr?
    && ShowsAnalyses(Json.Lookup(o, "analyses").value.items, BatchOf(w, r))
  }

  /** One shortlisted candidate as the record shows it. */
  ghost predicate ShowsCandidate(v: Value, x: Shortlisted) {
    && v.Obj?
    && Has(v.fields, "candidateId", Str(x.candidateId)) && Has(v.fields, "externalIdentityId", Str(x.Id()))
    && Has(v.fields, "name", Str(x.candidate.name)) && Has(v.fields, "title", Str(x.candidate.title))
    && Has(v.fields, "company", Str(x.candidate.company)) && Has(v.fields, "location", Str(x.candidate.location))
    && Has(v.fields, "summary", Str(x.candidate.summary)) && Has(v.fields, "reason", Str(x.reason))
    && Has(v.fields, "score", Real(x.score)) && Has(v.fields, "sourceRound", Int(x.sourceRound))
  }

  ghost predicate ShowsShortlist(v: Value, s: seq<Shortlisted>) {
    v.Arr? && |v.items| == |s| && forall i :: 0 <= i < |s| ==> ShowsCandidate(v.items[i], s[i])
  }

  /** The stored shortlist after a round. */
  function RetainedAfter(w: Scenario, r: nat): seq<Shortlisted> {
    Streamed(Batches(w, r), w.config.finalTopK)
  }

  ghost predicate ShortlistSays(w: Scenario, r: nat, o: Object) {
    var retained, analyzed := RetainedAfter(w, r), BatchOf(w, r);
    && Has(o, "retainedCount", Int(|retained|))
    && Json.Lookup(o, "retainedCandidates").Some?
    && ShowsShortlist(Json.Lookup(o, "retainedCandidates").value, retained)
    && Has(o, "analyzedCandidateIds", Arr(Strings(Ids(analyzed))))
    && Has(o, "analyzedCaseCandidateIds", Arr(CaseIds(analyzed)))
    && Has(o, "retainedCandidateIds", Arr(Strings(Ids(retained))))
    && Has(o, "retainedCaseCandidateIds", Arr(CaseIds(retained)))
  }

  /** The reflector's answer, with a wish to stop before the minimum turned into going on. */
  ghost predicate ReflectionSays(w: Scenario, r: nat, o: Object) {
    && w.outside.reflections(r).Success? && StrategyOf(w, r).Success? && StrategyOf(w, r + 1).Success?
    && var given: ReflectionOutput := w.outside.reflections(r).value;
    && var before, next := StrategyOf(w, r).value.query, StrategyOf(w, r + 1).value.query;
    && var overridden := !given.continueSearch && r < w.minRounds;
    && Has(o, "continueSearch", Bool(given.continueSearch || r < w.minRounds))
    && Has(o, "reason", Str(if overridden then given.reason + OverrideNote(w.minRounds) else given.reason))
    && Has(o, "nextRoundGoal", Str(if overridden then NEXT_ROUND_GOAL else given.nextRoundGoal))
    && Has(o, "nextRoundQuery", w.encoding.query(next))
    && Has(o, "queryDelta", w.encoding.delta(DeltaOf(before, next)))
    && Has(o, "minimumRoundsOverrideApplied", Bool(overridden))
  }

  /** Which of the three ways of stopping ended the run after round `r`. */
  datatype StopSource = ByRule | ByReflection | ByRepetition

  function StopSourceOf(w: Scenario, r: nat): StopSource {
    if r >= w.config.maxRounds || (r >= w.minRounds && StreakOf(w, r) >= 2) then ByRule
    else if w.outside.reflections(r).Success? && !w.outside.reflections(r).value.continueSearch then ByReflection
    else ByRepetition
  }

  function StopReason(w: Scenario, r: nat): string {
    match StopSourceOf(w, r)
    case ByRule => if r >= w.config.maxRounds then MAX_ROUNDS_REASON else NO_PROGRESS_REASON
    case ByReflection => if w.outside.reflections(r).Success? then w.outside.reflections(r).value.reason else ""
    case ByRepetition => DUPLICATE_STRATEGY_REASON
  }

  ghost predicate StopSays(w: Scenario, r: nat, summary: string, o: Object) {
    && EndsAfter(w, r) && summary == StopReason(w, r) && Has(o, "reason", Str(StopReason(w, r)))
    && match StopSourceOf(w, r)
       case ByRule => Has(o, "source", Str("rule")) && Json.Lookup(o, "duplicateStrategy") == None
       case ByReflection => Has(o, "source", Str("reflection")) && Json.Lookup(o, "duplicateStrategy") == None
       case ByRepetition =>
         && Has(o, "source", Str("duplicate-strategy")) && StrategyOf(w, r + 1).Success?
         && Has(o, "duplicateStrategy", w.encoding.query(StrategyOf(w, r + 1).value.query))
  }

  ghost predicate FinalizeSays(w: Scenario, r: nat, o: Object) {
    && Json.Lookup(o, "finalShortlist").Some?
    && ShowsShortlist(Json.Lookup(o, "finalShortlist").value, RetainedAfter(w, r))
    && EndsAfter(w, r) && Has(o, "stopReason", Str(StopReason(w, r)))
  }

  ghost predicate WarningSays(w: Scenario, o: Object) {
    && w.outside.publication.NotPublished?
    && Has(o, "warningCode", Str("LANGFUSE_TRACE_PUBLICATION_FAILED"))
    && (Has(o, "terminalStatus", Str("completed")) || Has(o, "terminalStatus", Str("failed")))
    && Has(o, "errorMessage", Str(
         if w.outside.publication.failure != "" then w.outside.publication.failure
         else "Langfuse trace publication failed."))
  }

  /** A step of a round says of it what the answers to that round make of it. */
  ghost predicate RoundStepSays(w: Scenario, r: nat, stepType: StepType, summary: string, o: Object) {
    match stepType
    case SearchStep => SearchSays(w, r, o)
    case DedupeStep => DedupeSays(w, r, o)
    case AnalysisStep => AnalysisSays(w, r, o)
    case ShortlistStep => ShortlistSays(w, r, o)
    case ReflectionStep => ReflectionSays(w, r, o)
    case StopStep => StopSays(w, r, summary, o)
    case FinalizeStep => FinalizeSays(w, r, o)
    case _ => false
  }

  /** The strategy step and the warning belong to the run. */
  ghost predicate PayloadSays(w: Scenario, stepType: StepType, roundNo: Option<int>, summary: string, o: Object) {
    if stepType == StrategyStep then roundNo == None && StrategySays(w, o)
    else if stepType == WarningStep then roundNo.GetOr(1) > 0 && WarningSays(w, o)
    else roundNo.Some? && roundNo.value > 0 && RoundStepSays(w, roundNo.value, stepType, summary, o)
  }

  /** A search step is completed when its page is, a warning counts as failed, all else as completed. */
  ghost predicate StatusSays(w: Scenario, stepType: StepType, roundNo: Option<int>, status: string) {
    match stepType
    case WarningStep => status == "failed"
    case SearchStep =>
      && roundNo.Some? && roundNo.value > 0
      && status == (if PageOf(w, roundNo.value).completed then "completed" else "failed")
    case _ => status == "completed"
  }

  ghost predicate StepSays(w: Scenario, s: Step) {
    PayloadSays(w, s.stepType, s.roundNo, s.summary, s.payload) && StatusSays(w, s.stepType, s.roundNo, s.status)
  }

  ghost predicate LogSays(w: Scenario, steps: seq<Step>) {
    forall s :: s in steps ==> StepSays(w, s)
  }

  lemma {:induction false} LogSaysMore(w: Scenario, steps: seq<Step>, s: Step)
    requires LogSays(w, steps) && StepSays(w, s)
    ensures LogSays(w, steps + [s])
  {
    hide StepSays;
  }

  // ---------------------------------------------------------------------------------------
  // The payloads the run writes say it
  // ---------------------------------------------------------------------------------------

  lemma {:induction false} SearchPayloadSays(
      w: Scenario, r: nat, query: Value, strategy: Value, page: SearchPage, offset: nat, trace: Value)
    requires StrategyOf(w, r).Success? && w.outside.pages(r) == Success(page)
    requires query == w.encoding.query(StrategyOf(w, r).value.query)
    requires strategy == w.encoding.strategy(StrategyOf(w, r).value)
    ensures SearchSays(w, r, SearchPayload(query, strategy, page, offset, trace))
    ensures Has(SearchPayload(query, strategy, page, offset, trace), "offset", Int(offset))
  {
    hide Has, StrategyOf;
    var o := SearchPayload(query, strategy, page, offset, trace);
    assert |o[0].key| == 10 && |o[1].key| == 15 && |o[2].key| == 6 && |o[3].key| == 8 && |o[4].key| == 6;
    assert |o[5].key| == 5 && |o[6].key| == 13 && |o[7].key| == 12 && |o[8].key| == 9 && |o[9].key| == 12;
    assert o[2].key[0] != o[4].key[0] && o[7].key[0] != o[9].key[0];
    FieldAt(o, 0);
    FieldAt(o, 1);
    FieldAt(o, 2);
    FieldAt(o, 3);
    FieldAt(o, 4);
    FieldAt(o, 5);
    FieldAt(o, 6);
    FieldAt(o, 7);
    FieldAt(o, 8);
    FieldAt(o, 9);
  }

  lemma {:induction false} SearchIsSaid(
      w: Scenario, r: nat, query: Value, strategy: Value, page: SearchPage, offset: nat, trace: Value)
    requires StrategyOf(w, r).Success? && w.outside.pages(r) == Success(page) && r > 0
    requires query == w.encoding.query(StrategyOf(w, r).value.query)
    requires strategy == w.encoding.strategy(StrategyOf(w, r).value)
    ensures var o := SearchPayload(query, strategy, page, offset, trace);
      && (forall summary :: PayloadSays(w, SearchStep, Some(r), summary, o)) && Has(o, "offset", Int(offset))
      && StatusSays(w, SearchStep, Some(r), if page.completed then "completed" else "failed")
  {
    hide SearchSays, SearchPayload, Has;
    SearchPayloadSays(w, r, query, strategy, page, offset, trace);
  }

  lemma {:induction false} DedupePayloadSays(w: Scenario, r: nat, trace: Value)
    requires r > 0
    ensures DedupeSays(w, r, DedupePayload(NewIn(w, r), DuplicatesIn(w, r), |SeenBy(w, r - 1)| + |NewIn(w, r)|, trace))
  {
    hide Has, NewIn, DuplicatesIn, SeenBy;
    var o := DedupePayload(NewIn(w, r), DuplicatesIn(w, r), |SeenBy(w, r - 1)| + |NewIn(w, r)|, trace);
    assert |o[0].key| == 17 && |o[1].key| == 18 && |o[2].key| == 15;
    FieldAt(o, 0);
    FieldAt(o, 1);
    FieldAt(o, 2);
  }

  lemma {:induction false} AnalysisPayloadSays(w: Scenario, r: nat, trace: Value)
    ensures AnalysisSays(w, r, AnalysisPayload(BatchOf(w, r), trace))
  {
    hide AnalysisJson, BatchOf, ShowsAnalysis;
    var batch := BatchOf(w, r);
    var o := AnalysisPayload(batch, trace);
    assert Json.Lookup(o, "analyses") == Some(o[0].value);
    forall i | 0 <= i < |batch| ensures ShowsAnalysis(o[0].value.items[i], batch[i]) {
      AnalysisJsonShows(batch[i], trace);
    }
  }

  lemma {:induction false} AnalysisJsonShows(x: Shortlisted, trace: Value)
    ensures ShowsAnalysis(AnalysisJson(x, trace), x)
  {
    hide Has;
    var o := AnalysisJson(x, trace).fields;
    assert |o[0].key| == 11 && |o[1].key| == 18 && |o[2].key| == 4 && |o[3].key| == 5 && |o[4].key| == 6;
    FieldAt(o, 0);
    FieldAt(o, 1);
    FieldAt(o, 2);
    FieldAt(o, 3);
    FieldAt(o, 4);
  }

  lemma {:induction false} ShortlistJsonShows(x: Shortlisted)
    ensures ShowsCandidate(ShortlistJson(x), x)
  {
    hide Has;
    var o := ShortlistJson(x).fields;
    assert |o[0].key| == 11 && |o[1].key| == 18 && |o[2].key| == 4 && |o[3].key| == 5 && |o[4].key| == 7;
    assert |o[5].key| == 8 && |o[6].key| == 7 && |o[7].key| == 6 && |o[8].key| == 5 && |o[9].key| == 11;
    assert o[3].key[0] != o[8].key[0] && o[4].key[0] != o[6].key[0] && o[0].key[0] != o[9].key[0];
    FieldAt(o, 0);
    FieldAt(o, 1);
    FieldAt(o, 2);
    FieldAt(o, 3);
    FieldAt(o, 4);
    FieldAt(o, 5);
    FieldAt(o, 6);
    FieldAt(o, 7);
    FieldAt(o, 8);
    FieldAt(o, 9);
  }

  lemma {:induction false} ShortlistJsonsShow(s: seq<Shortlisted>)
    ensures ShowsShortlist(ShortlistJsons(s), s)
  {
    hide ShowsCandidate, ShortlistJson;
    forall i | 0 <= i < |s| ensures ShowsCandidate(ShortlistJson(s[i]), s[i]) { ShortlistJsonShows(s[i]); }
  }

  lemma {:induction false} ShortlistPayloadSays(w: Scenario, r: nat, trace: Value)
    ensures ShortlistSays(w, r, ShortlistPayload(RetainedAfter(w, r), BatchOf(w, r), trace))
  {
    hide Has, BatchOf, RetainedAfter, ShowsShortlist;
    var retained, analyzed := RetainedAfter(w, r), BatchOf(w, r);
    ShortlistJsonsShow(retained);
    var o := ShortlistPayload(retained, analyzed, trace);
    assert |o[0].key| == 13 && |o[1].key| == 18 && |o[2].key| == 20 && |o[3].key| == 24 && |o[4].key| == 20;
    assert |o[5].key| == 24 && o[2].key[0] != o[4].key[0] && o[3].key[0] != o[5].key[0];
    FieldAt(o, 0);
    FieldAt(o, 1);
    FieldAt(o, 2);
    FieldAt(o, 3);
    FieldAt(o, 4);
    FieldAt(o, 5);
    assert Json.Lookup(o, "retainedCandidates") == Some(o[1].value) by { HasMeaning(o, o[1].key, o[1].value); }
  }

  lemma {:induction false} HasMeaning(o: Object, key: string, v: Value)
    ensures Has(o, key, v) <==> Json.Lookup(o, key) == Some(v)
  {
  }

  lemma {:induction false} ReflectionPayloadSays(
      w: Scenario, r: nat, output: ReflectionOutput, overridden: bool, nextQuery: Value, delta: Value, trace: Value)
    requires w.outside.reflections(r).Success? && StrategyOf(w, r).Success? && StrategyOf(w, r + 1).Success?
    requires var given: ReflectionOutput := w.outside.reflections(r).value;
      && (overridden <==> !given.continueSearch && r < w.minRounds)
      && (!overridden ==> output == given)
      && (overridden ==>
            && output.continueSearch && output.reason == given.reason + OverrideNote(w.minRounds)
            && output.nextRoundGoal == NEXT_ROUND_GOAL)
    requires nextQuery == w.encoding.query(StrategyOf(w, r + 1).value.query)
    requires delta == w.encoding.delta(DeltaOf(StrategyOf(w, r).value.query, StrategyOf(w, r + 1).value.query))
    ensures ReflectionSays(w, r, ReflectionPayload(output.continueSearch, output.reason, output.nextRoundGoal,
                                                   nextQuery, delta, overridden, trace))
  {
    hide Has, StrategyOf, OverrideNote, DeltaOf;
    var o := ReflectionPayload(output.continueSearch, output.reason, output.nextRoundGoal, nextQuery, delta,
                               overridden, trace);
    assert |o[0].key| == 14 && |o[1].key| == 6 && |o[2].key| == 13 && |o[3].key| == 14 && |o[4].key| == 10;
    assert |o[5].key| == 28 && o[0].key[0] != o[3].key[0];
    FieldAt(o, 0);
    FieldAt(o, 1);
    FieldAt(o, 2);
    FieldAt(o, 3);
    FieldAt(o, 4);
    FieldAt(o, 5);
  }

  lemma {:induction false} StopPayloadSays(reason: string, source: string, duplicate: Option<Value>, trace: Value)
    ensures var o := StopPayload(reason, source, duplicate, trace);
      && Has(o, "reason", Str(reason)) && Has(o, "source", Str(source))
      && Json.Lookup(o, "duplicateStrategy") == duplicate
  {
    var o := StopPayload(reason, source, duplicate, trace);
    assert |o[0].key| == 6 && |o[1].key| == 6 && o[0].key[0] != o[1].key[0];
    FieldAt(o, 0);
    FieldAt(o, 1);
    var key := "duplicateStrategy";
    assert |key| == 17 && o[1..][1..] == o[2..];
    assert Json.Lookup(o, key) == Json.Lookup(o[1..], key) == Json.Lookup(o[2..], key);
    if duplicate.Some? {
      assert o[2..][0] == Field(key, duplicate.value);
    } else {
      assert o[2..] == [Field("trace", trace)] && |o[2].key| == 5;
      assert o[2..][1..] == [];
      assert Json.Lookup(o[2..], key) == Json.Lookup([], key);
    }
  }

  /** A stop after round `r` for this reason, from this source, with this repeated query if there is one. */
  ghost predicate StopIs(w: Scenario, r: nat, reason: string, source: string, duplicate: Option<Value>) {
    && EndsAfter(w, r) && reason == StopReason(w, r)
    && match StopSourceOf(w, r)
       case ByRule => source == "rule" && duplicate == None
       case ByReflection => source == "reflection" && duplicate == None
       case ByRepetition =>
         && source == "duplicate-strategy" && StrategyOf(w, r + 1).Success?
         && duplicate == Some(w.encoding.query(StrategyOf(w, r + 1).value.query))
  }

  lemma {:induction false} StopIsSaid(
      w: Scenario, r: nat, reason: string, source: string, duplicate: Option<Value>, trace: Value)
    requires StopIs(w, r, reason, source, duplicate)
    ensures StopSays(w, r, reason, StopPayload(reason, source, duplicate, trace))
  {
    StopPayloadSays(reason, source, duplicate, trace);
    hide StopPayload, EndsAfter, StopReason, StopSourceOf, StrategyOf;
    var o := StopPayload(reason, source, duplicate, trace);
    assert duplicate.Some? ==> Has(o, "duplicateStrategy", duplicate.value);
  }

  lemma {:induction false} StopByRule(w: Scenario, r: nat)
    requires RuleStops(w, r)
    ensures StopIs(w, r, ShouldStopAfterRound(w.config, w.minRounds, r, StreakOf(w, r)).1, "rule", None)
  {
    hide StreakOf, EndsAfter, ReflectionStops;
    EndsIffStops(w, r);
  }

  lemma {:induction false} StopByReflection(w: Scenario, r: nat)
    requires !RuleStops(w, r) && r >= w.minRounds
    requires w.outside.reflections(r).Success? && !w.outside.reflections(r).value.continueSearch
    ensures StopIs(w, r, w.outside.reflections(r).value.reason, "reflection", None)
  {
    hide StreakOf, EndsAfter, SameQueryAgain;
    EndsIffStops(w, r);
  }

  lemma {:induction false} StopByRepetition(w: Scenario, r: nat)
    requires !RuleStops(w, r) && r >= w.minRounds && StreakOf(w, r) >= 1 && SameQueryAgain(w, r)
    requires w.outside.reflections(r).Success? && w.outside.reflections(r).value.continueSearch
    ensures StopIs(w, r, DUPLICATE_STRATEGY_REASON, "duplicate-strategy",
                   Some(w.encoding.query(StrategyOf(w, r + 1).value.query)))
  {
    hide StreakOf, EndsAfter, StrategyOf, StrategySignature;
    EndsIffStops(w, r);
  }

  lemma {:induction false} RetainedNext(w: Scenario, r: nat)
    requires r > 0
    ensures RetainedAfter(w, r) == TopK(RetainedAfter(w, r - 1) + BatchOf(w, r), w.config.finalTopK)
  {
    hide BatchOf, TopK;
    BatchesAppend(w, r - 1);
    StreamedAppend(Batches(w, r - 1), BatchOf(w, r), w.config.finalTopK);
  }

  lemma {:induction false} FinalizePayloadSays(w: Scenario, r: nat, trace: Value)
    requires EndsAfter(w, r)
    ensures FinalizeSays(w, r, FinalizePayload(RetainedAfter(w, r), Some(StopReason(w, r)), trace))
  {
    hide Has, RetainedAfter, ShowsShortlist, EndsAfter, StopReason;
    ShortlistJsonsShow(RetainedAfter(w, r));
    var o := FinalizePayload(RetainedAfter(w, r), Some(StopReason(w, r)), trace);
    assert |o[0].key| == 14 && |o[1].key| == 10;
    FieldAt(o, 0);
    FieldAt(o, 1);
    assert Json.Lookup(o, "finalShortlist") == Some(o[0].value) by { HasMeaning(o, o[0].key, o[0].value); }
  }

  lemma {:induction false} FinalizeIsSaid(w: Scenario, r: nat, trace: Value)
    requires EndsAfter(w, r) && r > 0
    ensures var o := FinalizePayload(RetainedAfter(w, r), Some(StopReason(w, r)), trace);
      && FinalizeSays(w, r, o) && StatusSays(w, FinalizeStep, Some(r), "completed")
      && forall summary :: PayloadSays(w, FinalizeStep, Some(r), summary, o)
  {
    hide FinalizePayload, FinalizeSays, RetainedAfter, EndsAfter, StopReason;
    FinalizePayloadSays(w, r, trace);
  }

  function ExtractionPayload(output: StrategyOutput, round1Query: Value, trace: Value): Object {
    [Field("mustRequirements", Arr(Strings(output.mustRequirements))),
     Field("coreRequirements", Arr(Strings(output.coreRequirements))),
     Field("bonusRequirements", Arr(Strings(output.bonusRequirements))),
     Field("excludeSignals", Arr(Strings(output.excludeSignals))),
     Field("round1Query", round1Query), Field("trace", trace)]
  }

  lemma {:induction false} ExtractionPayloadSays(w: Scenario, trace: Value)
    requires w.outside.strategy.Success?
    ensures var output: StrategyOutput := w.outside.strategy.value;
      StrategySays(w, ExtractionPayload(output, w.encoding.query(output.round1Query), trace))
  {
    hide Has;
    var output: StrategyOutput := w.outside.strategy.value;
    var o := ExtractionPayload(output, w.encoding.query(output.round1Query), trace);
    assert |o[0].key| == 16 && |o[1].key| == 16 && |o[2].key| == 17 && |o[3].key| == 14 && |o[4].key| == 11;
    assert o[0].key[0] != o[1].key[0];
    FieldAt(o, 0);
    FieldAt(o, 1);
    FieldAt(o, 2);
    FieldAt(o, 3);
    FieldAt(o, 4);
  }

  function WarningPayload(terminalStatus: string, message: string, trace: Value): Object {
    [Field("warningCode", Str("LANGFUSE_TRACE_PUBLICATION_FAILED")), Field("terminalStatus", Str(terminalStatus)),
     Field("errorMessage", Str(message)), Field("trace", trace)]
  }

  lemma {:induction false} WarningPayloadSays(terminalStatus: string, message: string, trace: Value)
    ensures var o := WarningPayload(terminalStatus, message, trace);
      && Has(o, "warningCode", Str("LANGFUSE_TRACE_PUBLICATION_FAILED"))
      && Has(o, "terminalStatus", Str(terminalStatus))
      && Has(o, "errorMessage", Str(message))
  {
    var o := WarningPayload(terminalStatus, message, trace);
    assert |o[0].key| == 11 && |o[1].key| == 14 && |o[2].key| == 12;
    FieldAt(o, 0);
    FieldAt(o, 1);
    FieldAt(o, 2);
  }

  lemma {:induction false} WarningIsSaid(
      w: Scenario, terminalStatus: string, trace: Value, roundNo: Option<int>)
    requires w.outside.publication.NotPublished? && roundNo.GetOr(1) > 0
    requires terminalStatus == "completed" || terminalStatus == "failed"
    ensures var failure := w.outside.publication.failure;
      var o := WarningPayload(
        terminalStatus, if failure != "" then failure else "Langfuse trace publication failed.", trace);
      && (forall summary :: PayloadSays(w, WarningStep, roundNo, summary, o)) && WarningSays(w, o)
      && StatusSays(w, WarningStep, roundNo, "failed")
      && Has(o, "terminalStatus", Str(terminalStatus))
  {
    hide Has, WarningPayload;
    var failure := w.outside.publication.failure;
    WarningPayloadSays(
      terminalStatus, if failure != "" then failure else "Langfuse trace publication failed.", trace);
  }

  // ---------------------------------------------------------------------------------------
  // What the ledger tells
  // ---------------------------------------------------------------------------------------

  /** What the reflector answered, as the ledger shows it. */
  ghost predicate TellsReflection(w: Scenario, r: nat, e: Ledger.ReflectionEntry) {
    && w.outside.reflections(r).Success? && StrategyOf(w, r).Success? && StrategyOf(w, r + 1).Success?
    && var given: ReflectionOutput := w.outside.reflections(r).value;
    && var overridden := !given.continueSearch && r < w.minRounds;
    && e.continueSearch == Bool(given.continueSearch || r < w.minRounds)
    && e.reason == Str(if overridden then given.reason + OverrideNote(w.minRounds) else given.reason)
    && e.nextRoundGoal == Str(if overridden then NEXT_ROUND_GOAL else given.nextRoundGoal)
    && e.queryDelta == w.encoding.delta(DeltaOf(StrategyOf(w, r).value.query, StrategyOf(w, r + 1).value.query))
  }

  ghost predicate TellsSearch(w: Scenario, r: nat, e: Ledger.SearchEntry) {
    && StrategyOf(w, r).Success? && w.outside.pages(r).Success?
    && var query := w.encoding.query(StrategyOf(w, r).value.query);
    && e.query == (if Truthy(query) then query else w.encoding.strategy(StrategyOf(w, r).value))
    && e.returnedCount == Int(|w.outside.pages(r).value.candidates|)
  }

  ghost predicate TellsAnalysis(w: Scenario, r: nat, e: Ledger.AnalysisEntry) {
    e.analyzedCount == |BatchOf(w, r)| && ShowsAnalyses(e.analyses, BatchOf(w, r))
  }

  /** Each part of an entry tells what its round did: the page, what of it was admitted and what not, the
      analyses, the ranking after it, the reflector's answer and the reason of a stop. */
  ghost predicate TellsRound(w: Scenario, e: Ledger.RoundEntry) {
    && e.roundNo > 0
    && var r: nat := e.roundNo;
    && (e.search.Some? ==> TellsSearch(w, r, e.search.value))
    && (e.dedupe.Some? ==>
          && e.dedupe.value.admittedCount == |NewIn(w, r)|
          && e.dedupe.value.duplicateCount == |DuplicatesIn(w, r)|
          && e.dedupe.value.duplicateResumeIds == Strings(DuplicatesIn(w, r)))
    && (e.analysis.Some? ==> TellsAnalysis(w, r, e.analysis.value))
    && (e.shortlist.Some? ==>
          && e.shortlist.value.retainedCount == Int(|RetainedAfter(w, r)|)
          && ShowsShortlist(e.shortlist.value.retainedCandidates, RetainedAfter(w, r)))
    && (e.reflection.Some? ==> TellsReflection(w, r, e.reflection.value))
    && (e.stop.Some? ==>
          && EndsAfter(w, r) && e.stop.value.summary == StopReason(w, r)
          && e.stop.value.reason == Str(StopReason(w, r)))
  }

  ghost predicate TellsExtraction(w: Scenario, e: Ledger.Extraction) {
    && w.outside.strategy.Success?
    && var output: StrategyOutput := w.outside.strategy.value;
    && e.mustRequirements == Arr(Strings(output.mustRequirements))
    && e.coreRequirements == Arr(Strings(output.coreRequirements))
    && e.bonusRequirements == Arr(Strings(output.bonusRequirements))
    && e.excludeSignals == Arr(Strings(output.excludeSignals))
    && e.round1Query == w.encoding.query(output.round1Query)
  }

  ghost predicate TellsRounds(w: Scenario, ledger: Ledger.RoundLedger) {
    && (ledger.extraction.Some? ==> TellsExtraction(w, ledger.extraction.value))
    && forall e :: e in ledger.rounds ==> TellsRound(w, e)
  }

  lemma {:induction false} LastStepSays(w: Scenario, steps: seq<Step>, r: nat, t: StepType)
    requires LogSays(w, steps)
    ensures Ledger.LastStep(steps, r, t).Some? ==>
      var s := Ledger.LastStep(steps, r, t).value; s.stepType == t && s.roundNo == Some(r) && StepSays(w, s)
  {
    hide StepSays;
    if steps != [] {
      var n := |steps| - 1;
      assert steps[n] in steps && forall s :: s in steps[..n] ==> s in steps;
      LastStepSays(w, steps[..n], r, t);
    }
  }

  lemma {:induction false} AnalysisReads(w: Scenario, r: nat, s: Step)
    requires s.stepType == AnalysisStep && AnalysisSays(w, r, s.payload)
    ensures Ledger.ObjectEntries(s) && TellsAnalysis(w, r, Ledger.AnalysisOf(s))
    ensures TellsAnalysis(w, r, Ledger.AnalysisOf(Compact(s)))
  {
    hide BatchOf, Has, Compact, Ledger.ProjectedEntry;
    var full, small := Ledger.AnalysisOf(s), Ledger.AnalysisOf(Compact(s));
    Ledger.AnalysisPreserved(s);
    forall i | 0 <= i < |full.analyses| ensures ShowsAnalysis(small.analyses[i], BatchOf(w, r)[i]) {
      CompactedShows(full.analyses[i], BatchOf(w, r)[i]);
    }
  }

  /** Compaction keeps what an entry shows. */
  lemma {:induction false} CompactedShows(v: Value, x: Shortlisted)
    requires ShowsAnalysis(v, x)
    ensures ShowsAnalysis(Ledger.ProjectedEntry(v), x)
  {
    hide CompactEntry, Json.Lookup;
    CompactEntryKeeps(v.fields, "candidateId");
    CompactEntryKeeps(v.fields, "externalIdentityId");
    CompactEntryKeeps(v.fields, "name");
    CompactEntryKeeps(v.fields, "score");
    CompactEntryKeeps(v.fields, "reason");
  }

  /** The readers of the ledger find in a step what the step says. */
  lemma {:induction false} StepReads(w: Scenario, r: nat, s: Step)
    requires s.roundNo == Some(r) && r > 0 && StepSays(w, s)
    ensures s.stepType == SearchStep ==> TellsSearch(w, r, Ledger.SearchOf(s))
    ensures s.stepType == DedupeStep ==>
      var e := Ledger.DedupeOf(s);
      && e.admittedCount == |NewIn(w, r)| && e.duplicateCount == |DuplicatesIn(w, r)|
      && e.duplicateResumeIds == Strings(DuplicatesIn(w, r))
    ensures s.stepType == ShortlistStep ==>
      var e := Ledger.ShortlistOf(s);
      e.retainedCount == Int(|RetainedAfter(w, r)|) && ShowsShortlist(e.retainedCandidates, RetainedAfter(w, r))
    ensures s.stepType == ReflectionStep ==> TellsReflection(w, r, Ledger.ReflectionOf(s))
    ensures s.stepType == StopStep ==>
      var e := Ledger.StopOf(s);
      EndsAfter(w, r) && e.summary == StopReason(w, r) && e.reason == Str(StopReason(w, r))
  {
    hide Json.Lookup, StrategyOf, NewIn, DuplicatesIn, RetainedAfter, ShowsShortlist, EndsAfter, StopReason, DeltaOf;
    hide OverrideNote, BatchOf, Truthy;
  }

  /** What the last step of each kind in a round says, part by part of the round's entry. */
  lemma {:induction false} LastStepReads(w: Scenario, steps: seq<Step>, r: nat, t: StepType)
    requires LogSays(w, steps) && r > 0 && Ledger.LastStep(steps, r, t).Some?
    ensures var s := Ledger.LastStep(steps, r, t).value;
      && (t == SearchStep ==> TellsSearch(w, r, Ledger.SearchOf(s)))
      && (t == DedupeStep ==>
            var e := Ledger.DedupeOf(s);
            && e.admittedCount == |NewIn(w, r)| && e.duplicateCount == |DuplicatesIn(w, r)|
            && e.duplicateResumeIds == Strings(DuplicatesIn(w, r)))
      && (t == AnalysisStep ==>
            && Ledger.ObjectEntries(s) && TellsAnalysis(w, r, Ledger.AnalysisOf(s))
            && TellsAnalysis(w, r, Ledger.AnalysisOf(Compact(s))))
      && (t == ShortlistStep ==>
            var e := Ledger.ShortlistOf(s);
            e.retainedCount == Int(|RetainedAfter(w, r)|) && ShowsShortlist(e.retainedCandidates, RetainedAfter(w, r)))
      && (t == ReflectionStep ==> TellsReflection(w, r, Ledger.ReflectionOf(s)))
      && (t == StopStep ==>
            var e := Ledger.StopOf(s);
            EndsAfter(w, r) && e.summary == StopReason(w, r) && e.reason == Str(StopReason(w, r)))
  {
    hide SearchSays, DedupeSays, AnalysisSays, ShortlistSays, ReflectionSays, StopSays, FinalizeSays, LogSays;
    hide TellsSearch, TellsAnalysis, TellsReflection, ShowsShortlist, EndsAfter, StopReason, Compact;
    LastStepSays(w, steps, r, t);
    var s := Ledger.LastStep(steps, r, t).value;
    StepReads(w, r, s);
    if t == AnalysisStep { AnalysisReads(w, r, s); }
  }

  /** An entry of the full log tells its round, and so does the entry of the compacted log. */
  lemma {:induction false} EntryTells(w: Scenario, steps: seq<Step>, r: nat)
    requires LogSays(w, steps) && r > 0
    ensures TellsRound(w, Ledger.EntryOf(steps, r)) && TellsRound(w, Ledger.EntryOf(CompactAll(steps), r))
  {
    hide StepSays, LogSays, TellsSearch, TellsAnalysis, TellsReflection, ShowsShortlist, EndsAfter, StopReason;
    hide Ledger.LastStep, Ledger.SearchOf, Ledger.DedupeOf, Ledger.AnalysisOf, Ledger.ShortlistOf, Ledger.ReflectionOf;
    hide Ledger.StopOf, NewIn, DuplicatesIn, RetainedAfter, CompactAll, Compact, Ledger.ObjectEntries;
    forall t | Ledger.LastStep(steps, r, t).Some? {
      LastStepReads(w, steps, r, t);
    }
    Ledger.LastCompacted(steps, r, AnalysisStep);
    Ledger.EntryCompacted(steps, r);
  }

  lemma {:induction false} ExtractionTells(w: Scenario, steps: seq<Step>)
    requires LogSays(w, steps) && Ledger.StrategyOf(steps).Some?
    ensures TellsExtraction(w, Ledger.ExtractionOf(Ledger.StrategyOf(steps).value))
  {
    assert steps[0] in steps;
    if steps[0].stepType != StrategyStep || steps[0].roundNo != None {
      assert forall s :: s in steps[1..] ==> s in steps;
      ExtractionTells(w, steps[1..]);
    }
  }

  lemma {:induction false} OccursPositive(w: Scenario, steps: seq<Step>, r: int)
    requires LogSays(w, steps) && Ledger.Occurs(steps, r)
    ensures r > 0
  {
    var i :| 0 <= i < |steps| && steps[i].roundNo == Some(r);
    assert steps[i] in steps && StepSays(w, steps[i]);
  }

  /** A ledger of a run's log, or of its compacted view, tells what each of its rounds did. */
  lemma {:induction false} LedgerTells(w: Scenario, steps: seq<Step>, ledger: Ledger.RoundLedger)
    requires LogSays(w, steps) && (Ledger.IsLedger(steps, ledger) || Ledger.IsLedger(CompactAll(steps), ledger))
    ensures TellsRounds(w, ledger)
  {
    hide LogSays, TellsRound, TellsExtraction, Ledger.EntryOf, Ledger.Occurs, Ledger.StrategyOf, Ledger.ExtractionOf;
    hide CompactAll;
    Ledger.StrategyCompacted(steps);
    if Ledger.StrategyOf(steps).Some? { ExtractionTells(w, steps); }
    forall e | e in ledger.rounds ensures TellsRound(w, e) {
      var i :| 0 <= i < |ledger.rounds| && ledger.rounds[i] == e;
      assert Ledger.RoundNos(ledger.rounds)[i] == e.roundNo;
      Ledger.OccursCompacted(steps, e.roundNo);
      OccursPositive(w, steps, e.roundNo);
      EntryTells(w, steps, e.roundNo);
    }
  }

  // ---------------------------------------------------------------------------------------
  // Which entries there are while the run goes on
  // ---------------------------------------------------------------------------------------

  /** How many rounds have a step of this kind in the log of a run that has not stopped. */
  function RoundsWith(p: Phase, t: StepType): int {
    match t
    case SearchStep => RoundsIn(p)
    case DedupeStep => DedupedRounds(p)
    case AnalysisStep => if p.Analysed? then p.roundNo else ListedRounds(p)
    case ShortlistStep => ListedRounds(p)
    case ReflectionStep => if p.Ready? then p.rounds else RoundsIn(p) - 1
    case _ => 0
  }

  predicate GoingOn(p: Phase) {
    p.Ready? || p.Searched? || p.Deduped? || p.Analysed? || p.Listed?
  }

  /** A step that goes on adds the next round of its own kind and changes no other count. */
  lemma {:induction false} NextPresent(p: Phase, s: Shape, t: StepType)
    requires GoingOn(Next(p, s))
    ensures if p == Start then s == Shape(StrategyStep, None) && Next(p, s) == Ready(0) else GoingOn(p)
    ensures p != Start ==>
      && s.roundNo == Some(RoundsWith(Next(p, s), s.stepType))
      && RoundsWith(Next(p, s), t) == RoundsWith(p, t) + (if t == s.stepType then 1 else 0)
      && RoundsIn(Next(p, s)) == (if s.stepType == SearchStep then RoundsIn(p) + 1 else RoundsIn(p))
      && s.roundNo == Some(RoundsIn(Next(p, s)))
  {
  }

  /** A log that goes on is the strategy step alone or a shorter one with one more step. */
  lemma {:induction false} LastOfGoingOn(steps: seq<Step>, t: StepType)
    requires GoingOn(PhaseOf(Shapes(steps)))
    ensures steps != []
    ensures var n := |steps| - 1;
      var q, p, s := PhaseOf(Shapes(steps[..n])), PhaseOf(Shapes(steps)), steps[n];
      && steps == steps[..n] + [s] && p == Next(q, ShapeOf(s))
      && if q == Start then n == 0 && ShapeOf(s) == Shape(StrategyStep, None) && p == Ready(0)
         else
           && GoingOn(q) && s.roundNo == Some(RoundsWith(p, s.stepType)) && s.roundNo == Some(RoundsIn(p))
           && RoundsWith(q, t) >= 0
           && RoundsWith(p, t) == RoundsWith(q, t) + (if t == s.stepType then 1 else 0)
           && RoundsIn(p) == (if s.stepType == SearchStep then RoundsIn(q) + 1 else RoundsIn(q))
  {
    var n := |steps| - 1;
    var before, s := steps[..n], steps[n];
    assert steps == before + [s];
    AppendedStep(before, s);
    hide PhaseOf, Shapes;
    var q := PhaseOf(Shapes(before));
    NextPresent(q, ShapeOf(s), t);
    if q == Start { StartIsEmpty(before); } else { PositiveRounds(before, t); }
    hide Next, RoundsWith;
  }

  lemma {:induction false} PositiveRounds(steps: seq<Step>, t: StepType)
    requires GoingOn(PhaseOf(Shapes(steps)))
    ensures RoundsWith(PhaseOf(Shapes(steps)), t) >= 0
  {
    hide PhaseOf, Shapes, FullRounds, RoundSteps;
    GrammarMeaning(Shapes(steps), PhaseOf(Shapes(steps)));
  }

  lemma {:induction false} FirstIsStrategy(steps: seq<Step>)
    requires GoingOn(PhaseOf(Shapes(steps)))
    ensures steps != [] && ShapeOf(steps[0]) == Shape(StrategyStep, None)
  {
    hide PhaseOf, Shapes, RoundsWith;
    LastOfGoingOn(steps, StopStep);
    var n := |steps| - 1;
    if PhaseOf(Shapes(steps[..n])) != Start { FirstIsStrategy(steps[..n]); }
  }

  /** Each kind of step occurs once for each of the first so many rounds. */
  lemma {:induction false} StepsPresent(steps: seq<Step>, r: int, t: StepType)
    requires GoingOn(PhaseOf(Shapes(steps)))
    ensures Ledger.LastStep(steps, r, t).Some? <==> 1 <= r <= RoundsWith(PhaseOf(Shapes(steps)), t)
  {
    hide PhaseOf, Shapes, RoundsWith, GoingOn;
    LastOfGoingOn(steps, t);
    var n := |steps| - 1;
    if PhaseOf(Shapes(steps[..n])) == Start {
      NoneReady(t);
      assert steps[..n] == [];
    } else {
      StepsPresent(steps[..n], r, t);
    }
  }

  lemma {:induction false} RoundsPresent(steps: seq<Step>, r: int)
    requires GoingOn(PhaseOf(Shapes(steps)))
    ensures Ledger.Occurs(steps, r) <==> 1 <= r <= RoundsIn(PhaseOf(Shapes(steps)))
  {
    hide PhaseOf, Shapes, RoundsWith, GoingOn, Ledger.Occurs;
    LastOfGoingOn(steps, SearchStep);
    var n := |steps| - 1;
    OccursAppend(steps[..n], steps[n], r);
    if PhaseOf(Shapes(steps[..n])) == Start {
      NoneReady(SearchStep);
      NoneOccurs(r);
      assert steps[..n] == [];
    } else {
      RoundsPresent(steps[..n], r);
      LastOfGoingOn(steps, steps[n].stepType);
    }
  }

  lemma {:induction false} NoneReady(t: StepType)
    ensures RoundsWith(Ready(0), t) == 0 && RoundsIn(Ready(0)) == 0
  {
  }

  lemma {:induction false} NoneOccurs(r: int)
    ensures !Ledger.Occurs([], r)
  {
  }

  lemma {:induction false} OccursAppend(steps: seq<Step>, s: Step, r: int)
    ensures Ledger.Occurs(steps + [s], r) <==> Ledger.Occurs(steps, r) || s.roundNo == Some(r)
  {
    var more := steps + [s];
    if Ledger.Occurs(steps, r) {
      var i :| 0 <= i < |steps| && steps[i].roundNo == Some(r);
      assert more[i].roundNo == Some(r);
    }
    assert more[|steps|] == s;
  }

  lemma {:induction false} StartIsEmpty(steps: seq<Step>)
    requires PhaseOf(Shapes(steps)) == Start
    ensures steps == []
  {
  }

  /** The numbers 1 to `n`. */
  function UpTo(n: nat): (r: seq<int>)
    ensures |r| == n && forall i :: 0 <= i < n ==> r[i] == i + 1
  {
    seq(n, i => i + 1)
  }

  /** The ledger that is shown after a shortlist has one entry for each round so far, in order: all of
      them with search, dedupe, analysis and shortlist, all but the last with a reflection, none with a
      stop; and it starts with the extraction. */
  ghost predicate UpToShortlist(ledger: Ledger.RoundLedger, n: nat) {
    && ledger.extraction.Some? && |ledger.rounds| == n
    && forall i :: 0 <= i < n ==>
         var e := ledger.rounds[i];
         && e.roundNo == i + 1 && e.search.Some? && e.dedupe.Some? && e.analysis.Some? && e.shortlist.Some?
         && (e.reflection.Some? <==> i + 1 < n) && e.stop.None?
  }

  lemma {:induction false} LedgerAfterShortlist(steps: seq<Step>, n: nat, ledger: Ledger.RoundLedger)
    requires PhaseOf(Shapes(steps)) == Listed(n) && Ledger.IsLedger(CompactAll(steps), ledger)
    ensures UpToShortlist(ledger, n)
  {
    hide PhaseOf, Shapes, CompactAll, Ledger.IsLedger;
    ExtractionListed(steps, ledger);
    RoundsListed(steps, n, ledger);
    forall i | 0 <= i < n
      ensures var e := ledger.rounds[i];
        && e.roundNo == i + 1 && e.search.Some? && e.dedupe.Some? && e.analysis.Some? && e.shortlist.Some?
        && (e.reflection.Some? <==> i + 1 < n) && e.stop.None?
    {
      assert Ledger.RoundNos(ledger.rounds)[i] == i + 1;
      EntryPresent(steps, n, i + 1, ledger, i);
    }
  }

  lemma {:induction false} ExtractionListed(steps: seq<Step>, ledger: Ledger.RoundLedger)
    requires GoingOn(PhaseOf(Shapes(steps))) && Ledger.IsLedger(CompactAll(steps), ledger)
    ensures ledger.extraction.Some?
  {
    hide PhaseOf, Shapes, CompactAll, Ledger.EntryOf, Ledger.ExtractionOf, Ledger.Occurs, Ascending;
    FirstIsStrategy(steps);
    Ledger.StrategyCompacted(steps);
  }

  lemma {:induction false} RoundsListed(steps: seq<Step>, n: nat, ledger: Ledger.RoundLedger)
    requires PhaseOf(Shapes(steps)) == Listed(n) && Ledger.IsLedger(CompactAll(steps), ledger)
    ensures Ledger.RoundNos(ledger.rounds) == UpTo(n)
  {
    hide PhaseOf, Shapes, CompactAll, Ledger.StrategyOf, Ledger.EntryOf, Ledger.ExtractionOf, Ledger.Occurs, Ascending;
    var nos := Ledger.RoundNos(ledger.rounds);
    forall r ensures r in nos <==> r in UpTo(n) {
      RoundsPresent(steps, r);
      Ledger.OccursCompacted(steps, r);
      assert 1 <= r <= n ==> UpTo(n)[r - 1] == r;
    }
    UpToAscends(n);
    AscendingUnique(nos, UpTo(n));
  }

  lemma {:induction false} UpToAscends(n: nat)
    ensures Ascending(UpTo(n))
  {
  }

  lemma {:induction false} EntryPresent(steps: seq<Step>, n: nat, r: nat, ledger: Ledger.RoundLedger, i: nat)
    requires PhaseOf(Shapes(steps)) == Listed(n) && 1 <= r <= n
    requires Ledger.IsLedger(CompactAll(steps), ledger) && i < |ledger.rounds| && ledger.rounds[i].roundNo == r
    ensures var e := ledger.rounds[i];
      && e.search.Some? && e.dedupe.Some? && e.analysis.Some? && e.shortlist.Some?
      && (e.reflection.Some? <==> r < n) && e.stop.None?
  {
    hide PhaseOf, Shapes, CompactAll, Ledger.LastStep, Ledger.Occurs, Ledger.ExtractionOf, Ledger.StrategyOf, Ascending;
    forall t ensures Ledger.LastStep(CompactAll(steps), r, t).Some? <==> r <= RoundsWith(Listed(n), t) {
      StepsPresent(steps, r, t);
      Ledger.LastCompacted(steps, r, t);
    }
  }
}
