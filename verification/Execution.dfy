/** The execution of an agent run: the workflow-side state beside the persisted record, and the
    bounded multi-round protocol that drives both.

    Whatever comes from outside (the agents, the resume source, the persistence activities, the
    trace exporter) is read from an `Outside`, which is arbitrary.  Every activity either takes
    effect and returns, or fails without effect.
 */
module Execution {
  import opened Wrappers
  import opened Json
  import opened RunConfig
  import opened Query
  import opened ResumeSource
  import opened Paging
  import opened Shortlist
  import opened RunLog
  import opened LogGrammar
  import opened RunRecord
  import opened Rounds
  import opened Progress
  import opened OutsideWorld
  import opened LogContents

  function RoundTitle(roundNo: nat, what: string): string {
    "Round " + JsonText.Digits(roundNo) + " " + what
  }

  function RoundOrNone(currentRound: nat): Option<int> {
    if currentRound == 0 then None else Some(currentRound)
  }

  /** How the execution ends: it returns a status, or the workflow itself fails. */
  datatype Outcome = Returned(status: Status) | Raised(error: Error)

  // ---------------------------------------------------------------------------------------
  // Saving steps keeps the record in order
  // ---------------------------------------------------------------------------------------

  lemma {:induction false} LastOk(history: seq<Run>)
    requires HistoryOk(history) && history != []
    ensures RecordOk(history[|history| - 1])
  {
  }

  lemma {:induction false} SavedStepKept(r: Run, p: Patch, s: Step, batches: seq<seq<Shortlisted>>)
    requires RecordOk(r) && Kept(r, batches) && s.stepNo == |r.steps| + 1 && Savable(r, p, ShapeOf(s), s.payload)
    requires s.stepType != ShortlistStep && p.finalShortlist.GetOr(r.finalShortlist) == r.finalShortlist
    ensures var after := Patched(r, p.(appendSteps := [s]));
      && RecordOk(after) && MayFollow(r, after) && Stage(after) == Next(Stage(r), ShapeOf(s)) && Kept(after, batches)
      && after.seenResumeIds == p.seenResumeIds.GetOr(r.seenResumeIds)
  {
    SavedStepOk(r, p, s);
    hide RecordOk, MayFollow, Kept, Next, Final, PhaseOf, Shapes;
    KeptStep(r, Patched(r, p.(appendSteps := [s])), s, batches);
  }

  /** Saving a step keeps all that the committed records tell and say. */
  lemma {:induction false} SavedStepSound(
      w: Scenario, history: seq<Run>, r: Run, p: Patch, s: Step, batches: seq<seq<Shortlisted>>,
      requests: seq<Requested>)
    requires HistoryOk(history) && history != [] && history[|history| - 1] == r
    requires Kept(r, batches) && HistoryTells(history, batches, requests) && LogSays(w, r.steps)
    requires s.stepNo == |r.steps| + 1 && Savable(r, p, ShapeOf(s), s.payload)
    requires s.stepType != ShortlistStep && p.finalShortlist.GetOr(r.finalShortlist) == r.finalShortlist
    requires SeenAt(Next(Stage(r), ShapeOf(s)), p.seenResumeIds.GetOr(r.seenResumeIds), requests)
    requires StepSays(w, s)
    ensures var after := Patched(r, p.(appendSteps := [s]));
      && HistoryOk(history + [after]) && Kept(after, batches) && HistoryTells(history + [after], batches, requests)
      && SeenAt(Stage(after), after.seenResumeIds, requests) && LogSays(w, after.steps)
      && Stage(after) == Next(Stage(r), ShapeOf(s)) && after.config == r.config && after.jdText == r.jdText
  {
    hide Patched, RecordOk, MayFollow, HistoryOk, Kept, HistoryTells, SeenAt, Next, Savable, LogSays, StepSays, Stage;
    LastOk(history);
    SavedStepKept(r, p, s, batches);
    var after := Patched(r, p.(appendSteps := [s]));
    PatchedSteps(r, p.(appendSteps := [s]));
    LogSaysMore(w, r.steps, s);
    HistoryAppend(history, after);
    TellsAppend(history, batches, requests, after);
  }

  lemma {:induction false} PlainKept(r: Run, p: Patch, batches: seq<seq<Shortlisted>>)
    requires Kept(r, batches) && p.appendSteps == [] && p.seenResumeIds == None && p.finalShortlist == None
    ensures Kept(Patched(r, p), batches) && Patched(r, p).seenResumeIds == r.seenResumeIds
  {
    hide PhaseOf, Shapes, RetainedLog, RetainedAfterEach, Flatten, Streamed;
    assert r.steps + [] == r.steps;
  }

  lemma {:induction false} PatchedSteps(r: Run, p: Patch)
    ensures Patched(r, p).steps == r.steps + p.appendSteps && (p.appendSteps == [] ==> Patched(r, p).steps == r.steps)
    ensures Patched(r, p).config == r.config && Patched(r, p).jdText == r.jdText
  {
  }

  /** Nothing was admitted, nothing is seen anew. */
  lemma {:induction false} SameSeen(r: Run)
    requires RecordOk(r)
    ensures SeenMatches(r, EMPTY_PATCH, []) && Distinct(r.seenResumeIds)
  {
  }

  // ---------------------------------------------------------------------------------------
  // The execution state
  // ---------------------------------------------------------------------------------------

  class AgentRun {
    const store: RunStore
    const outside: Outside
    const lower: string -> string
    const agentMinRounds: int
    const encoding: Encoding

    var run: Run
    var retained: seq<Shortlisted>
    var persistedCandidates: map<string, CandidatePersistence.Ref>
    var strategyOffsets: map<Signature, nat>
    var noProgressRounds: nat
    var previousShortlist: seq<string>
    var stopReason: Option<string>
    /** The number of patches sent so far; the outside answers each by its number. */
    var sent: nat

    /** Steps appended to the workflow's view that no patch has persisted yet. */
    ghost var unsaved: seq<Step>
    ghost var requests: seq<Requested>
    /** The analysed candidates of each round whose shortlist was persisted. */
    ghost var batches: seq<seq<Shortlisted>>

    constructor (store: RunStore, outside: Outside, lower: string -> string, agentMinRounds: int,
                 encoding: Encoding, run: Run)
      ensures this.store == store && this.outside == outside && this.lower == lower && this.encoding == encoding
      ensures this.agentMinRounds == agentMinRounds && this.run == run && sent == 0
      ensures retained == [] && persistedCandidates == map[] && strategyOffsets == map[]
      ensures noProgressRounds == 0 && previousShortlist == []
      ensures unsaved == [] && requests == [] && batches == []
    {
      this.store, this.outside, this.lower, this.agentMinRounds, this.run := store, outside, lower, agentMinRounds, run;
      this.encoding := encoding;
      retained, persistedCandidates, strategyOffsets, noProgressRounds := [], map[], map[], 0;
      previousShortlist, stopReason, sent := [], None, 0;
      unsaved, requests, batches := [], [], [];
    }

    function MinRounds(): int {
      EffectiveMinRounds(agentMinRounds, store.config)
    }

    ghost function World(): Scenario {
      Scenario(outside, store.jdText, store.config, MinRounds(), lower, encoding)
    }

    ghost function At(): Phase
      reads store
    {
      Stage(store.Value())
    }

    /** The workflow's view is the record with compacted steps, followed by the unsaved ones. */
    ghost predicate Synced()
      reads `run, `unsaved, store
    {
      && run.(steps := []) == store.Value().(steps := [])
      && run.steps == CompactAll(store.steps + unsaved)
    }

    ghost predicate Sound()
      reads `run, `unsaved, `requests, `batches, `strategyOffsets, store
    {
      && Synced()
      && HistoryOk(store.history) && store.history != [] && store.history[|store.history| - 1] == store.Value()
      && Kept(store.Value(), batches) && SeenAt(At(), store.seenResumeIds, requests)
      && HistoryTells(store.history, batches, requests)
      && batches == Batches(World(), |batches|) && AskedFor(World(), requests) && LogSays(World(), store.steps)
      && PagesOk(requests, strategyOffsets, store.config.roundFetchSchedule)
      && NoIdleRepeat(requests, batches, MinRounds(), store.config.finalTopK)
    }

    ghost function LastPayload(): Object
      reads store
    {
      if store.steps == [] then [] else store.steps[|store.steps| - 1].payload
    }

    ghost function LastStatus(): string
      reads store
    {
      if store.steps == [] then "" else store.steps[|store.steps| - 1].status
    }

    /** The run is under way: not terminal, nothing audited. */
    ghost predicate Active()
      reads `run, `unsaved, `requests, `batches, `strategyOffsets, store
    {
      && Sound() && Normalised(store.config)
      && store.status == Running && !store.finished && store.auditLog == [] && !At().Warned?
      && store.errorCode == None && store.errorMessage == None
    }

    ghost predicate InStep()
      reads `retained, `previousShortlist, `noProgressRounds, `batches
    {
      && retained == Streamed(batches, store.config.finalTopK)
      && previousShortlist == Ids(retained)
      && noProgressRounds == NoProgressStreak(batches, store.config.finalTopK)
    }

    ghost predicate RoundsDone(n: nat)
      reads `retained, `previousShortlist, `noProgressRounds, `batches, `requests, `persistedCandidates, store
    {
      && |batches| == |requests| == store.currentRound == n && InStep()
      && persistedCandidates == TableAfter(World(), n)
      && Ids(Flatten(batches)) == store.seenResumeIds
    }

    ghost predicate MayStart(q: SearchQuery)
      reads `requests, `batches
    {
      requests != [] && MinRounds() <= |requests| ==>
        Allowed(requests[|requests| - 1].signature, StrategySignature(lower, q),
                NoProgressStreak(batches, store.config.finalTopK))
    }

    // -------------------------------------------------------------------------------------
    // Persisting
    // -------------------------------------------------------------------------------------

    /** The new step is numbered and compacted in the workflow's view; the full step is returned. */
    method AppendStep(roundNo: Option<int>, stepType: StepType, title: string, status: string, summary: string,
                      payload: Object)
      returns (step: Step)
      requires Synced()
      modifies `run, `unsaved
      ensures Synced() && unsaved == old(unsaved) + [step]
      ensures step == NewStep(store.steps + old(unsaved), roundNo, stepType, title, status, summary, payload)
      ensures step.stepNo == |store.steps| + |old(unsaved)| + 1 && step.roundNo == roundNo && step.stepType == stepType
      ensures step.title == title && step.status == status && step.summary == summary && step.payload == payload
    {
      hide CompactPayload;
      step := NewStep(run.steps, roundNo, stepType, title, status, summary, payload);
      var compact := CompactStepPayload(stepType, payload);
      run := run.(steps := run.steps + [step.(payload := compact)]);
      assert store.steps + (unsaved + [step]) == store.steps + unsaved + [step];
      unsaved := unsaved + [step];
    }

    /** One persistence activity: the patch takes effect and a snapshot comes back, or it fails
        without effect. */
    method PersistPatch(p: Patch) returns (error: Option<Error>)
      requires Synced()
      modifies `run, `unsaved, `sent, store
      ensures error == outside.patches(old(sent)) && sent == old(sent) + 1
      ensures Synced()
      ensures error.Some? ==> unchanged(store) && unsaved == old(unsaved)
      ensures error.None? ==>
        && unsaved == [] && store.Value() == Patched(old(store.Value()), p)
        && store.history == old(store.history) + [store.Value()]
        && store.auditLog == old(store.auditLog) + AuditsOf(old(store.status), store.Value())
    {
      hide Patched, CompactPayload;
      error := outside.patches(sent);
      sent := sent + 1;
      if error.Some? {
        return;
      }
      run := store.ApplyPatch(p);
      unsaved := [];
      assert store.steps + [] == store.steps;
    }

    /** A patch without steps.  It also resynchronises a view that is ahead of the record. */
    method SavePatch(p: Patch) returns (error: Option<Error>)
      requires Sound()
      requires p.appendSteps == [] && p.seenResumeIds == None && p.finalShortlist == None && p.status != Some(Completed)
      requires StatusMayFollow(store.status, p.status.GetOr(store.status))
      requires store.currentRound <= p.currentRound.GetOr(store.currentRound)
      modifies `run, `unsaved, `sent, store
      ensures error == outside.patches(old(sent)) && sent == old(sent) + 1
      ensures Sound()
      ensures error.Some? ==> unchanged(store)
      ensures error.None? ==>
        && unsaved == [] && store.Value() == Patched(old(store.Value()), p) && At() == old(At())
        && store.auditLog == old(store.auditLog) + AuditsOf(old(store.status), store.Value())
    {
      hide Patched, RecordOk, MayFollow, HistoryOk, Kept, HistoryTells, SeenAt, PagesOk, NoIdleRepeat, AuditsOf;
      hide PhaseOf, Shapes;
      LastOk(store.history);
      hide LogSays;
      PatchedSteps(store.Value(), p);
      PlainPatchOk(store.Value(), p);
      PlainKept(store.Value(), p, batches);
      HistoryAppend(store.history, Patched(store.Value(), p));
      TellsAppend(store.history, batches, requests, Patched(store.Value(), p));
      error := PersistPatch(p);
    }

    /** Append a step and persist it with its patch. */
    method SaveStep(roundNo: Option<int>, stepType: StepType, title: string, status: string, summary: string,
                    payload: Object, p: Patch)
      returns (error: Option<Error>)
      requires Sound() && unsaved == []
      requires stepType != ShortlistStep && p.finalShortlist.GetOr(store.finalShortlist) == store.finalShortlist
      requires Savable(store.Value(), p, Shape(stepType, roundNo), payload)
      requires SeenAt(Next(At(), Shape(stepType, roundNo)), p.seenResumeIds.GetOr(store.seenResumeIds), requests)
      requires PayloadSays(World(), stepType, roundNo, summary, payload)
      requires StatusSays(World(), stepType, roundNo, status)
      modifies `run, `unsaved, `sent, store
      ensures error == outside.patches(old(sent)) && sent == old(sent) + 1
      ensures Sound()
      ensures error.Some? ==> unchanged(store)
      ensures error.None? ==>
        && unsaved == []
        && store.Value() == Patched(old(store.Value()),
             p.(appendSteps := [NewStep(old(store.steps), roundNo, stepType, title, status, summary, payload)]))
        && At() == Next(old(At()), Shape(stepType, roundNo))
        && store.auditLog == old(store.auditLog) + AuditsOf(old(store.status), store.Value())
    {
      hide Patched, RecordOk, MayFollow, HistoryOk, Kept, HistoryTells, SeenAt, PagesOk, NoIdleRepeat, AuditsOf;
      hide PhaseOf, Shapes, Savable, Next, LogSays, PayloadSays, StatusSays, AskedFor, Batches, Stage;
      var step := AppendStep(roundNo, stepType, title, status, summary, payload);
      assert store.steps + [] == store.steps;
      SavedStepSound(World(), store.history, store.Value(), p, step, batches, requests);
      error := PersistPatch(p.(appendSteps := [step]));
    }

    /** A step of a run that stays under way; only a dedupe step may extend the seen ids. */
    method SaveRoundStep(roundNo: Option<int>, stepType: StepType, title: string, status: string, summary: string,
                         payload: Object, seen: Option<seq<string>>)
      returns (error: Option<Error>)
      requires Active() && unsaved == []
      requires stepType != AnalysisStep && stepType != ShortlistStep
      requires var next := Next(At(), Shape(stepType, roundNo)); Settled(next) && !Final(next) && !next.Warned?
      requires seen.Some? <==> stepType == DedupeStep
      requires seen.Some? ==> SeenMatches(store.Value(), EMPTY_PATCH.(seenResumeIds := seen),
                                          Ledger.PayloadList(Get(payload, "admittedResumeIds")))
      requires seen.Some? ==> SeenAt(Next(At(), Shape(stepType, roundNo)), seen.value, requests)
      requires PayloadSays(World(), stepType, roundNo, summary, payload)
      requires StatusSays(World(), stepType, roundNo, status)
      modifies `run, `unsaved, `sent, store
      ensures error == outside.patches(old(sent)) && sent == old(sent) + 1
      ensures Active()
      ensures error.Some? ==> unchanged(store)
      ensures error.None? ==>
        && unsaved == [] && At() == Next(old(At()), Shape(stepType, roundNo))
        && store.seenResumeIds == seen.GetOr(old(store.seenResumeIds))
        && store.currentRound == old(store.currentRound)
        && store.steps == old(store.steps)
             + [NewStep(old(store.steps), roundNo, stepType, title, status, summary, payload)]
    {
      hide RecordOk, HistoryOk, Kept, HistoryTells, SeenAt, PagesOk, NoIdleRepeat, PhaseOf, Shapes, Next, SeenMatches;
      hide Strings, LogSays, PayloadSays, StatusSays;
      LastOk(store.history);
      SameSeen(store.Value());
      RunningIsNotFinal(store.Value());
      var p := EMPTY_PATCH.(seenResumeIds := seen);
      SavableInRound(store.Value(), p, Shape(stepType, roundNo), payload);
      if seen.None? { SeenAtNext(At(), Shape(stepType, roundNo), store.seenResumeIds, requests); }
      error := SaveStep(roundNo, stepType, title, status, summary, payload, p);
    }

    // -------------------------------------------------------------------------------------
    // One round
    // -------------------------------------------------------------------------------------

    /** Search one page; the offset of the query's signature advances by what came back, also when
        the page reports an error. */
    method SearchRound(roundNo: nat, fetchSize: int, strategy: Strategy)
      returns (error: Option<Error>, page: SearchPage, ghost trace: Value)
      requires Active() && unsaved == [] && roundNo > 0 && At() == Ready(roundNo - 1)
      requires store.currentRound == |requests| == |batches| == roundNo - 1
      requires roundNo <= store.config.maxRounds && fetchSize == store.config.roundFetchSchedule[roundNo - 1]
      requires StrategyOf(World(), roundNo) == Success(strategy) && MayStart(strategy.query)
      modifies `run, `unsaved, `strategyOffsets, `requests, `sent, store
      ensures Active()
      ensures Played(error, sent) == Play(World(), Played(None, old(sent)), SearchCalls(roundNo))
      ensures error.None? ==>
        && unsaved == [] && At() == Searched(roundNo) && store.currentRound == roundNo
        && store.seenResumeIds == old(store.seenResumeIds)
        && |requests| == roundNo && page == PageOf(World(), roundNo)
        && LastPayload() == SearchPayload(encoding.query(strategy.query), encoding.strategy(strategy), page,
                                          requests[roundNo - 1].offset, trace)
        && Has(LastPayload(), "offset", Int(requests[roundNo - 1].offset))
        && LastStatus() == (if page.completed then "completed" else "failed")
        && outside.pages(roundNo) == Success(page) && page.errorCode.GetOr("") == ""
      ensures error ==
        var first, answer, second := outside.patches(old(sent)), outside.pages(roundNo), outside.patches(old(sent) + 1);
        if first.Some? then first
        else if answer.Failure? then Some(answer.error)
        else if second.Some? then second
        else if answer.value.errorCode.GetOr("") == "" then None
        else Some(Error(answer.value.errorCode.value,
                        if answer.value.errorMessage.GetOr("") == "" then "CTS search failed."
                        else answer.value.errorMessage.value))
    {
      hide RecordOk, HistoryOk, Kept, HistoryTells, SeenAt, PagesOk, NoIdleRepeat, PhaseOf, Shapes, Synced;
      hide BuildSearchRequest, StrategySignature, StrategyOf, Allowed, NoProgressStreak, AskedFor, Batches, Play;
      hide EffectiveMinRounds, SearchPayload, LogSays, PayloadSays, StatusSays, Has;
      PlaySearch(World(), sent, roundNo);
      hide SearchCalls;
      page, trace := NO_PAGE, *;
      error := StartRound(roundNo);
      if error.Some? {
        return;
      }
      var built := BuildSearchRequest(lower, strategy.query, fetchSize, strategyOffsets);
      var (request, signature, offset) := built;
      var answer := outside.pages(roundNo);
      if answer.Failure? {
        return Some(answer.error), page, trace;
      }
      page := answer.value;
      RecordRequest(request, signature, offset, page.candidates);
      var searchTrace: Value := *;
      trace := searchTrace;
      SearchIsSaid(World(), roundNo, encoding.query(strategy.query), encoding.strategy(strategy), page, offset, trace);
      error := SaveRoundStep(
        Some(roundNo), SearchStep, RoundTitle(roundNo, "CTS search"),
        if page.completed then "completed" else "failed", "",
        SearchPayload(encoding.query(strategy.query), encoding.strategy(strategy), page, offset, searchTrace), None);
      if error.None? && page.errorCode.GetOr("") != "" {
        var message := page.errorMessage.GetOr("");
        error := Some(Error(page.errorCode.value, if message != "" then message else "CTS search failed."));
      }
    }

    method StartRound(roundNo: nat) returns (error: Option<Error>)
      requires Active() && unsaved == [] && store.currentRound <= roundNo
      modifies `run, `unsaved, `sent, store
      ensures error == outside.patches(old(sent)) && sent == old(sent) + 1
      ensures Active() && At() == old(At()) && store.seenResumeIds == old(store.seenResumeIds)
      ensures error.None? ==> unsaved == [] && store.currentRound == roundNo
    {
      hide RecordOk, HistoryOk, Kept, HistoryTells, SeenAt, PagesOk, NoIdleRepeat, PhaseOf, Shapes, Synced, LogSays;
      error := SavePatch(EMPTY_PATCH.(currentRound := Some(roundNo)));
    }

    method RecordRequest(request: SearchRequest, signature: Signature, offset: nat, candidates: seq<Candidate>)
      requires Active() && |requests| == |batches| < store.config.maxRounds
      requires request.pageSize == store.config.roundFetchSchedule[|requests|]
      requires (request.pageNo - 1) * request.pageSize <= offset < request.pageNo * request.pageSize
      requires offset == OffsetIn(strategyOffsets, signature) && signature == StrategySignature(lower, request.query)
      requires MayStart(request.query)
      requires StrategyOf(World(), |requests| + 1).Success?
      requires request.query == StrategyOf(World(), |requests| + 1).value.query
      requires outside.pages(|requests| + 1).Success? && candidates == PageOf(World(), |requests| + 1).candidates
      modifies `strategyOffsets, `requests
      ensures Active()
      ensures requests == old(requests)
        + [Requested(request.query, signature, request.pageNo, request.pageSize, offset, candidates)]
    {
      hide RecordOk, HistoryOk, Kept, HistoryTells, SeenAt, NoIdleRepeat, PhaseOf, Shapes, Synced, Allowed;
      hide NoProgressStreak, StrategySignature, LogSays;
      hide OffsetOf, StrategyOf, PageOf, AskedFor, Batches;
      ghost var q := Requested(request.query, signature, request.pageNo, request.pageSize, offset, candidates);
      AskedAppend(World(), requests, q);
      SeenAtMore(At(), store.seenResumeIds, requests, q);
      TellsMore(store.history, batches, requests, batches, requests + [q]);
      RequestAppend(requests, batches, MinRounds(), store.config.finalTopK, q);
      assert OffsetIn(strategyOffsets, signature) == OffsetOf(requests, signature);
      PagesAppend(requests, strategyOffsets, store.config.roundFetchSchedule, q);
      strategyOffsets := strategyOffsets[signature := offset + |candidates|];
      requests := requests + [q];
    }

    method DedupeRound(roundNo: nat, page: SearchPage) returns (error: Option<Error>, admitted: seq<Candidate>)
      requires Active() && unsaved == [] && At() == Searched(roundNo)
      requires |requests| == roundNo > 0 && page == PageOf(World(), roundNo)
      modifies `run, `unsaved, `sent, store
      ensures error == outside.patches(old(sent)) && sent == old(sent) + 1
      ensures Active() && admitted == NewIn(World(), roundNo)
      ensures error.None? ==>
        && unsaved == [] && At() == Deduped(roundNo) && store.currentRound == old(store.currentRound)
        && store.seenResumeIds == old(store.seenResumeIds) + ExternalIds(admitted)
    {
      hide RecordOk, HistoryOk, Kept, HistoryTells, SeenAt, PagesOk, NoIdleRepeat, PhaseOf, Shapes, Synced, LogSays;
      hide RequestOf, AskedFor, NewIn, PageOf, DedupeSays, SeenMatches, Strings, Batches;
      LastOk(store.history);
      SameSeen(store.Value());
      assert run.seenResumeIds == store.seenResumeIds by { SameView(); }
      var duplicateIds, updatedSeen;
      admitted, duplicateIds, updatedSeen := DedupeCandidates(run.seenResumeIds, page.candidates);
      var trace: Value := *;
      DedupeReady(World(), roundNo, store.Value(), requests, page, admitted, duplicateIds, updatedSeen, trace);
      error := SaveRoundStep(Some(roundNo), DedupeStep, RoundTitle(roundNo, "dedupe"), "completed", "",
                             DedupePayload(admitted, duplicateIds, |updatedSeen|, trace), Some(updatedSeen));
    }

    lemma SameView()
      requires Synced()
      ensures run.seenResumeIds == store.seenResumeIds && run.config == store.config && run.jdText == store.jdText
      ensures run.currentRound == store.currentRound && |run.steps| == |store.steps| + |unsaved|
    {
    }

    /** Persist the admitted candidates, have each one matched, and store the analyses. */
    method AnalyseRound(roundNo: nat, candidates: seq<Candidate>)
      returns (error: Option<Error>, analyzed: seq<Shortlisted>)
      requires roundNo > 0 && candidates == NewIn(World(), roundNo)
      requires persistedCandidates == TableAfter(World(), roundNo - 1)
      modifies `persistedCandidates
      ensures Played(error, sent) == Play(World(), Played(None, sent), AnalysisCalls(World(), roundNo))
      ensures error.None? ==> analyzed == BatchOf(World(), roundNo) && Ids(analyzed) == ExternalIds(candidates)
      ensures error.None? ==> persistedCandidates == TableAfter(World(), roundNo)
    {
      hide NewIn;
      if candidates == [] {
        assert TableAfter(World(), roundNo) == TableAfter(World(), roundNo - 1);
        return None, [];
      }
      PlayAnalysis(World(), sent, roundNo);
      BatchRound(World(), roundNo);
      hide Play, AnalysisCalls, TableAfter, BatchOf, WithRefs, MissingReference;
      analyzed := [];
      error := PersistSnapshots(roundNo);
      if error.Some? {
        return;
      }
      error, analyzed := AnalyzeRoundCandidates(roundNo, candidates);
      if error.None? && analyzed != [] {
        error := outside.analysesStored(roundNo);
      }
    }

    /** The references the persistence activity answers are entered under the external ids they name. */
    method PersistSnapshots(roundNo: nat) returns (error: Option<Error>)
      modifies `persistedCandidates
      ensures error == ErrorOf(outside.references(roundNo))
      ensures persistedCandidates ==
        if error.Some? then old(persistedCandidates)
        else WithRefs(old(persistedCandidates), outside.references(roundNo).value)
    {
      var answer := outside.references(roundNo);
      if answer.Failure? {
        return Some(answer.error);
      }
      var persisted := answer.value;
      var i := 0;
      while i < |persisted|
        invariant 0 <= i <= |persisted|
        invariant persistedCandidates == WithRefs(old(persistedCandidates), persisted[..i])
      {
        assert persisted[..i + 1][..i] == persisted[..i];
        persistedCandidates := persistedCandidates[persisted[i].externalId := persisted[i]];
        i := i + 1;
      }
      assert persisted[..i] == persisted;
      return None;
    }

    /** The matcher's failure comes first, then the first missing reference. */
    method AnalyzeRoundCandidates(roundNo: nat, candidates: seq<Candidate>)
      returns (error: Option<Error>, analyzed: seq<Shortlisted>)
      ensures candidates == [] ==> error.None? && analyzed == []
      ensures candidates != [] ==>
        var matched, missing := ErrorOf(outside.matches(roundNo)), MissingReference(candidates, persistedCandidates);
        && error == (if matched.Some? then matched else missing)
        && (error.None? ==>
              analyzed == Combined(candidates, persistedCandidates, outside.matches(roundNo).value, roundNo))
    {
      if candidates == [] {
        return None, [];
      }
      var results := outside.matches(roundNo);
      if results.Failure? {
        return Some(results.error), [];
      }
      error, analyzed := CombineResults(roundNo, candidates, results.value);
    }

    /** Pair candidates with their match results and references; the first candidate without a
        reference, if there is one, is an error. */
    method CombineResults(roundNo: nat, candidates: seq<Candidate>, results: nat -> BoundedMatch)
      returns (error: Option<Error>, analyzed: seq<Shortlisted>)
      ensures error == MissingReference(candidates, persistedCandidates)
      ensures error.None? ==> analyzed == Combined(candidates, persistedCandidates, results, roundNo)
      ensures error.None? ==> |analyzed| == |candidates| && forall i :: 0 <= i < |analyzed| ==>
        var answer: MatchOutput := results(i);
        && analyzed[i].candidate == candidates[i] && candidates[i].externalId in persistedCandidates
        && analyzed[i].candidateId == persistedCandidates[candidates[i].externalId].candidateId
        && analyzed[i].reason == answer.summary && analyzed[i].sourceRound == roundNo
        && analyzed[i].score == (if answer.score >= 0.99 then 0.99 else answer.score)
    {
      hide MissingReference, MissingMessage, Combined, AnalysisFor;
      analyzed := [];
      var i := 0;
      assert candidates[0..] == candidates;
      while i < |candidates|
        invariant 0 <= i == |analyzed| <= |candidates|
        invariant MissingReference(candidates, persistedCandidates) ==
                  MissingReference(candidates[i..], persistedCandidates)
        invariant forall j :: 0 <= j < i ==>
          && analyzed[j] == AnalysisFor(candidates[j], persistedCandidates, results(j), roundNo)
          && candidates[j].externalId in persistedCandidates
          && analyzed[j].candidateId == persistedCandidates[candidates[j].externalId].candidateId
          && analyzed[j].candidate == candidates[j] && analyzed[j].sourceRound == roundNo
          && var answer: MatchOutput := results(j);
             && analyzed[j].reason == answer.summary
             && analyzed[j].score == (if answer.score >= 0.99 then 0.99 else answer.score)
      {
        MissingStep(candidates, persistedCandidates, i);
        var candidate := candidates[i];
        if candidate.externalId !in persistedCandidates {
          return Some(Error(AGENT_RUN_FAILED, MissingMessage(candidate))), [];
        }
        analyzed := analyzed + [Analyse(roundNo, candidate, results(i))];
        i := i + 1;
      }
      MissingStep(candidates, persistedCandidates, i);
      error := None;
    }

    /** One candidate with its reference and its capped score. */
    function Analyse(roundNo: nat, candidate: Candidate, output: BoundedMatch): (x: Shortlisted)
      requires candidate.externalId in persistedCandidates
      reads `persistedCandidates
      ensures x == AnalysisFor(candidate, persistedCandidates, output, roundNo)
    {
      var capped := if output.score <= 0.99 then output.score else 0.99;
      Shortlisted(persistedCandidates[candidate.externalId].candidateId, candidate,
                  if capped >= 0.0 then capped else 0.0, output.summary, roundNo)
    }

    /** Rank the round's candidates into the shortlist and persist the analysis and shortlist steps
        together with it, in one patch. */
    method RankRound(roundNo: nat, newCount: nat, analyzed: seq<Shortlisted>) returns (error: Option<Error>)
      requires newCount == |analyzed| && Active() && unsaved == [] && InStep() && At() == Deduped(roundNo)
      requires |requests| == |batches| + 1 == roundNo && analyzed == BatchOf(World(), roundNo)
      requires store.seenResumeIds == Ids(Flatten(batches)) + Ids(analyzed)
      modifies `run, `unsaved, `retained, `previousShortlist, `noProgressRounds, `batches, `sent, store
      ensures error == outside.patches(old(sent)) && sent == old(sent) + 1
      ensures Active()
      ensures error.None? ==>
        && unsaved == [] && InStep() && At() == Listed(roundNo)
        && batches == old(batches) + [analyzed] && Ids(Flatten(batches)) == store.seenResumeIds
        && store.currentRound == old(store.currentRound)
    {
      hide RecordOk, HistoryOk, Kept, HistoryTells, SeenAt, PagesOk, NoIdleRepeat, PhaseOf, Shapes, Synced, AskedFor;
      hide TopK, Streamed, NoProgressStreak, Flatten, BatchOf, Batches, EffectiveMinRounds, LogSays;
      SameView();
      RetainedIsStored();
      StreamedAppend(batches, analyzed, store.config.finalTopK);
      BatchRound(World(), roundNo);
      hide Active;
      retained := RankCandidates(retained, analyzed, run.config.finalTopK);
      error := SavePair(roundNo, analyzed, retained);
      if error.Some? {
        return;
      }
      AddBatch(analyzed);
      CountProgress(newCount, analyzed);
    }

    /** The round's batch joins those the record tells. */
    ghost method AddBatch(analyzed: seq<Shortlisted>)
      requires unsaved == [] && Synced() && store.status == Running && !store.finished && store.auditLog == []
      requires store.errorCode == None && store.errorMessage == None && Normalised(store.config) && !At().Warned?
      requires HistoryOk(store.history) && store.history != [] && store.history[|store.history| - 1] == store.Value()
      requires Kept(store.Value(), batches + [analyzed]) && SeenAt(At(), store.seenResumeIds, requests)
      requires HistoryTells(store.history, batches + [analyzed], requests)
      requires batches == Batches(World(), |batches|) && AskedFor(World(), requests) && LogSays(World(), store.steps)
      requires analyzed == BatchOf(World(), |batches| + 1) && |requests| == |batches| + 1
      requires PagesOk(requests, strategyOffsets, store.config.roundFetchSchedule)
      requires NoIdleRepeat(requests, batches, MinRounds(), store.config.finalTopK)
      modifies `batches
      ensures Active() && batches == old(batches) + [analyzed]
    {
      hide HistoryOk, Kept, HistoryTells, SeenAt, PagesOk, NoIdleRepeat, PhaseOf, Shapes, Synced, AskedFor, BatchOf;
      hide LogSays;
      BatchAppend(requests, batches, MinRounds(), store.config.finalTopK, analyzed);
      BatchesAppend(World(), |batches|);
      batches := batches + [analyzed];
    }

    lemma RetainedIsStored()
      requires Sound()
      ensures store.finalShortlist == Streamed(batches, store.config.finalTopK)
    {
    }

    /** The analysis step and the shortlist step are numbered one after the other and saved by one
        patch, with the new shortlist. */
    method SavePair(roundNo: nat, analyzed: seq<Shortlisted>, shortlist: seq<Shortlisted>)
      returns (error: Option<Error>)
      requires Active() && unsaved == [] && At() == Deduped(roundNo) && |batches| + 1 == roundNo
      requires shortlist == TopK(store.finalShortlist + analyzed, store.config.finalTopK)
      requires analyzed == BatchOf(World(), roundNo) && forall x :: x in analyzed ==> x.sourceRound == roundNo
      requires store.seenResumeIds == Ids(Flatten(batches)) + Ids(analyzed)
      modifies `run, `unsaved, `sent, store
      ensures error == outside.patches(old(sent)) && sent == old(sent) + 1
      ensures error.Some? ==> Active() && unchanged(store)
      ensures error.None? ==>
        && unsaved == [] && Synced() && store.status == Running && !store.finished && store.auditLog == []
        && store.errorCode == None && store.errorMessage == None
        && HistoryOk(store.history) && store.history != [] && store.history[|store.history| - 1] == store.Value()
        && Kept(store.Value(), batches + [analyzed]) && At() == Listed(roundNo)
        && SeenAt(At(), store.seenResumeIds, requests) && HistoryTells(store.history, batches + [analyzed], requests)
        && Normalised(store.config) && batches == Batches(World(), |batches|) && AskedFor(World(), requests)
        && LogSays(World(), store.steps)
        && PagesOk(requests, strategyOffsets, store.config.roundFetchSchedule)
        && NoIdleRepeat(requests, batches, MinRounds(), store.config.finalTopK)
        && store.seenResumeIds == old(store.seenResumeIds) && store.currentRound == old(store.currentRound)
    {
      hide RecordOk, MayFollow, HistoryOk, Kept, HistoryTells, SeenAt, PagesOk, NoIdleRepeat, PhaseOf, Shapes, TopK;
      hide Flatten, Patched, BatchOf, LogSays, AskedFor, Streamed, Batches, AnalysisPayload, ShortlistPayload, Stage;
      RetainedIsStored();
      var trace: Value, pairTrace: Value := *, *;
      var analysis := AppendStep(Some(roundNo), AnalysisStep, RoundTitle(roundNo, "analysis"), "completed", "",
                                 AnalysisPayload(analyzed, trace));
      var listed := AppendStep(Some(roundNo), ShortlistStep, RoundTitle(roundNo, "shortlist"), "completed", "",
                               ShortlistPayload(shortlist, analyzed, pairTrace));
      assert store.steps + [] == store.steps;
      SavedPairSound(World(), store.history, store.Value(), analysis, listed, roundNo, batches, requests, shortlist,
                     trace, pairTrace);
      error := PersistPatch(EMPTY_PATCH.(finalShortlist := Some(shortlist), appendSteps := [analysis, listed]));
    }

    /** The counter grows when the round left the shortlist ids unchanged, which it does whenever
        nothing was admitted. */
    method CountProgress(newCount: nat, ghost analyzed: seq<Shortlisted>)
      requires newCount == |analyzed| && batches != [] && analyzed == batches[|batches| - 1]
      requires var before := batches[..|batches| - 1]; var k := store.config.finalTopK;
        && retained == Streamed(batches, k) && previousShortlist == Ids(Streamed(before, k))
        && noProgressRounds == NoProgressStreak(before, k)
      modifies `previousShortlist, `noProgressRounds
      ensures InStep()
    {
      hide TopK, Streamed, NoProgressStreak;
      ghost var before := batches[..|batches| - 1];
      assert batches == before + [analyzed];
      StreamedAppend(before, analyzed, store.config.finalTopK);
      if analyzed == [] { EmptyRoundNoProgress(before, store.config.finalTopK); }
      var shortlistSignature := Ids(retained);
      if newCount == 0 || shortlistSignature == previousShortlist {
        noProgressRounds := noProgressRounds + 1;
      } else {
        noProgressRounds := 0;
      }
      previousShortlist := shortlistSignature;
    }

    /** What the reflector is shown: built from the compacted view, it is the ledger of the full
        persisted log with only the analysis entries cut down. */
    method ReflectorLedger() returns (ledger: Ledger.RoundLedger)
      requires Sound() && unsaved == []
      ensures Ledger.IsLedger(run.steps, ledger)
      ensures forall full :: Ledger.IsLedger(store.steps, full) ==> ledger == Ledger.Projected(full)
      ensures TellsRounds(World(), ledger) && (At().Listed? ==> UpToShortlist(ledger, At().roundNo))
    {
      hide Ledger.IsLedger, Ledger.Projected, Ledger.LedgerEntriesAreObjects, HistoryOk, Kept, HistoryTells, SeenAt;
      hide PagesOk, NoIdleRepeat, LogSays, TellsRounds, UpToShortlist, AskedFor, Batches, PhaseOf, Shapes;
      LastOk(store.history);
      ReadEntriesAreObjects(store.Value());
      assert store.steps + [] == store.steps;
      ledger := Ledger.BuildCompactRoundLedger(run.steps);
      LedgerTells(World(), store.steps, ledger);
      if At().Listed? { LedgerAfterShortlist(store.steps, At().roundNo, ledger); }
      forall full | Ledger.IsLedger(store.steps, full) ensures ledger == Ledger.Projected(full) {
        Ledger.CompactionPreservesLedger(store.steps, full, ledger);
      }
    }

    /** The reflector's answer, with a wish to stop before the minimum overridden. */
    method Reflect(roundNo: nat, given: ReflectionOutput) returns (output: ReflectionOutput, overridden: bool)
      ensures overridden <==> !given.continueSearch && roundNo < MinRounds()
      ensures output.nextRoundQuery == given.nextRoundQuery
      ensures if overridden then output.continueSearch else output == given
      ensures overridden ==> output.reason == given.reason + OverrideNote(MinRounds())
      ensures overridden ==> output.nextRoundGoal == NEXT_ROUND_GOAL
    {
      hide EffectiveMinRounds, OverrideNote;
      output, overridden := given, !given.continueSearch && roundNo < MinRounds();
      if overridden {
        output := ReflectionOutput(true, given.reason + OverrideNote(MinRounds()), NEXT_ROUND_GOAL,
                                   given.nextRoundQuery);
      }
    }

    /** Ask the reflector for the next query and record its answer with the delta to the last one.  The
        ledger is what the reflector is shown; its answer may depend on it in any way. */
    method ReflectRound(roundNo: nat, strategy: Strategy)
      returns (error: Option<Error>, output: ReflectionOutput, next: Strategy, shown: Ledger.RoundLedger,
               ghost trace: Value)
      requires Active() && unsaved == [] && At() == Listed(roundNo) && roundNo > 0
      requires StrategyOf(World(), roundNo) == Success(strategy)
      modifies `run, `unsaved, `sent, store
      ensures Active()
      ensures Played(error, sent) ==
              Then(World(), Then(World(), Played(None, old(sent)), OutsideWorld.Reflect(roundNo)), Save)
      ensures TellsRounds(World(), shown) && UpToShortlist(shown, roundNo)
      ensures error.None? ==>
        && unsaved == [] && At() == Ready(roundNo)
        && store.currentRound == old(store.currentRound) && store.seenResumeIds == old(store.seenResumeIds)
        && StrategyOf(World(), roundNo + 1) == Success(next) && outside.reflections(roundNo).Success?
        && var given := outside.reflections(roundNo).value;
        && BuildSearchStrategy(store.jdText, given.nextRoundQuery) == Success(next)
        && (output.continueSearch <==> given.continueSearch || roundNo < MinRounds())
        && (!output.continueSearch ==> output == given)
        && LastPayload() == ReflectionPayload(
             output.continueSearch, output.reason, output.nextRoundGoal, encoding.query(next.query),
             encoding.delta(DeltaOf(strategy.query, next.query)), !given.continueSearch && roundNo < MinRounds(), trace)
    {
      hide RecordOk, HistoryOk, Kept, HistoryTells, SeenAt, PagesOk, NoIdleRepeat, PhaseOf, Shapes;
      hide EffectiveMinRounds, CompactAll, AskedFor, Batches, LogSays, TellsRounds, UpToShortlist, OverrideNote;
      hide BuildSearchStrategy, DeltaOf, Ledger.IsLedger, Ledger.Projected, ReflectionPayload;
      next, output, trace := strategy, ReflectionOutput(true, "", "", strategy.query), *;
      SameView();
      shown := ReflectorLedger();
      var answer := outside.reflections(roundNo);
      if answer.Failure? {
        return Some(answer.error), output, next, shown, trace;
      }
      var overridden;
      output, overridden := Reflect(roundNo, answer.value);
      var built := NormalizedStrategy(run.jdText, output.nextRoundQuery);
      if built.Failure? {
        return Some(built.error), output, next, shown, trace;
      }
      next := built.value;
      error, trace := SaveReflection(roundNo, output, strategy, next, overridden);
    }

    method SaveReflection(roundNo: nat, output: ReflectionOutput, strategy: Strategy, next: Strategy, overridden: bool)
      returns (error: Option<Error>, ghost trace: Value)
      requires Active() && unsaved == [] && At() == Listed(roundNo) && roundNo > 0
      requires StrategyOf(World(), roundNo) == Success(strategy) && StrategyOf(World(), roundNo + 1) == Success(next)
      requires outside.reflections(roundNo).Success?
      requires var given: ReflectionOutput := outside.reflections(roundNo).value;
        && (overridden <==> !given.continueSearch && roundNo < MinRounds())
        && (!overridden ==> output == given)
        && (overridden ==>
              && output.continueSearch && output.reason == given.reason + OverrideNote(MinRounds())
              && output.nextRoundGoal == NEXT_ROUND_GOAL)
      modifies `run, `unsaved, `sent, store
      ensures error == outside.patches(old(sent)) && sent == old(sent) + 1
      ensures Active()
      ensures error.None? ==>
        && unsaved == [] && At() == Ready(roundNo)
        && store.currentRound == old(store.currentRound) && store.seenResumeIds == old(store.seenResumeIds)
        && LastPayload() == ReflectionPayload(
             output.continueSearch, output.reason, output.nextRoundGoal, encoding.query(next.query),
             encoding.delta(DeltaOf(strategy.query, next.query)), overridden, trace)
    {
      hide RecordOk, HistoryOk, Kept, HistoryTells, SeenAt, PagesOk, NoIdleRepeat, PhaseOf, Shapes, Synced, DeltaOf;
      hide ReflectionPayload, LogSays, ReflectionSays, StrategyOf, OverrideNote, EffectiveMinRounds, AskedFor, Batches;
      var delta := BuildQueryDelta(strategy.query, next.query);
      var reflectionTrace: Value := *;
      trace := reflectionTrace;
      ReflectionPayloadSays(World(), roundNo, output, overridden, encoding.query(next.query), encoding.delta(delta),
                            trace);
      error := SaveRoundStep(
        Some(roundNo), ReflectionStep, RoundTitle(roundNo, "reflection"), "completed", output.reason,
        ReflectionPayload(output.continueSearch, output.reason, output.nextRoundGoal, encoding.query(next.query),
                          encoding.delta(delta), overridden, reflectionTrace),
        None);
    }

    method SaveStop(roundNo: nat, what: string, reason: string, source: string, duplicate: Option<Value>)
      returns (error: Option<Error>)
      requires Active() && unsaved == [] && roundNo > 0
      requires At() == Listed(roundNo) || At() == Ready(roundNo)
      requires StopIs(World(), roundNo, reason, source, duplicate)
      modifies `run, `unsaved, `stopReason, `sent, store
      ensures error == outside.patches(old(sent)) && sent == old(sent) + 1
      ensures Active()
      ensures error.None? ==>
        && unsaved == [] && At() == Stopped(roundNo) && stopReason == Some(reason)
        && store.currentRound == old(store.currentRound) && store.seenResumeIds == old(store.seenResumeIds)
    {
      hide RecordOk, HistoryOk, Kept, HistoryTells, SeenAt, PagesOk, NoIdleRepeat, PhaseOf, Shapes, Synced;
      hide LogSays, StopSays, StopIs, AskedFor, Batches, EffectiveMinRounds, StopPayload;
      stopReason := Some(reason);
      var trace: Value := *;
      StopIsSaid(World(), roundNo, reason, source, duplicate, trace);
      error := SaveRoundStep(Some(roundNo), StopStep, RoundTitle(roundNo, what), "completed", reason,
                             StopPayload(reason, source, duplicate, trace), None);
    }

    /** After the shortlist of a round: stop by rule, or reflect and then stop or go on. */
    method DecideRound(roundNo: nat, strategy: Strategy) returns (error: Option<Error>, stop: bool, next: Strategy)
      requires Active() && unsaved == [] && At() == Listed(roundNo) && RoundsDone(roundNo) && roundNo > 0
      requires StrategyOf(World(), roundNo) == Success(strategy)
      modifies `run, `unsaved, `stopReason, `sent, store
      ensures Active()
      ensures Play(World(), Played(None, old(sent)), DecideCalls(World(), roundNo)) ==
              Play(World(), Played(error, sent), if stop then [Save] else CallsFrom(World(), roundNo + 1))
      ensures error.None? ==> unsaved == [] && RoundsDone(roundNo)
      ensures error.None? ==> (stop <==> RuleStops(World(), roundNo) || ReflectionStops(World(), roundNo))
      ensures error.None? ==> (stop <==>
        || roundNo >= store.config.maxRounds
        || (roundNo >= MinRounds() && noProgressRounds >= 2)
        || (roundNo >= MinRounds() && outside.reflections(roundNo).Success?
            && !outside.reflections(roundNo).value.continueSearch)
        || (roundNo >= MinRounds() && outside.reflections(roundNo).Success? && noProgressRounds >= 1
            && StrategySignature(lower, next.query) == StrategySignature(lower, strategy.query)))
      ensures error.None? && stop ==>
        && At() == Stopped(roundNo) && MinRounds() <= roundNo && stopReason == Some(StopReason(World(), roundNo))
        && stopReason == Some(
             if roundNo >= store.config.maxRounds then MAX_ROUNDS_REASON
             else if roundNo >= MinRounds() && noProgressRounds >= 2 then NO_PROGRESS_REASON
             else if !outside.reflections(roundNo).value.continueSearch then outside.reflections(roundNo).value.reason
             else DUPLICATE_STRATEGY_REASON)
      ensures error.None? && !stop ==>
        && At() == Ready(roundNo) && roundNo < store.config.maxRounds && MayStart(next.query)
        && StrategyOf(World(), roundNo + 1) == Success(next)
    {
      hide RecordOk, HistoryOk, Kept, HistoryTells, SeenAt, PagesOk, NoIdleRepeat, PhaseOf, Shapes, Synced;
      hide NoProgressStreak, Streamed, Flatten, TableAfter, Batches, AskedFor, StrategyOf, Play, CallsFrom, DecideCalls;
      hide StrategySignature, EffectiveMinRounds, DeltaOf, ReflectionPayload, LastPayload, InStep, StreakOf, Ids;
      hide Active, LogSays, StopIs, StopReason, SameQueryAgain;
      LastRequest(roundNo, strategy);
      ghost var w, start := World(), Played(None, sent);
      next, stop := strategy, true;
      var (shouldStop, ruleReason) := ShouldStopAfterRound(run.config, MinRounds(), roundNo, noProgressRounds);
      assert shouldStop <==> RuleStops(w, roundNo);
      if shouldStop {
        PlayRuleStop(w, start, roundNo);
        StopByRule(w, roundNo);
        StopReasonIs(w, roundNo, ruleReason, "rule", None);
        error := SaveStop(roundNo, "stop", ruleReason, "rule", None);
        return;
      }
      error, stop, next := ReflectAndDecide(roundNo, strategy);
    }

    /** No rule stops the run: reflect, and then stop or go on. */
    method ReflectAndDecide(roundNo: nat, strategy: Strategy)
      returns (error: Option<Error>, stop: bool, next: Strategy)
      requires Active() && unsaved == [] && At() == Listed(roundNo) && RoundsDone(roundNo) && roundNo > 0
      requires StrategyOf(World(), roundNo) == Success(strategy) && !RuleStops(World(), roundNo)
      modifies `run, `unsaved, `stopReason, `sent, store
      ensures Active()
      ensures Play(World(), Played(None, old(sent)), DecideCalls(World(), roundNo)) ==
              Play(World(), Played(error, sent), if stop then [Save] else CallsFrom(World(), roundNo + 1))
      ensures error.None? ==> unsaved == [] && RoundsDone(roundNo)
      ensures error.None? ==> (stop <==> ReflectionStops(World(), roundNo))
      ensures error.None? ==> outside.reflections(roundNo).Success?
      ensures error.None? ==> (stop <==>
        || (roundNo >= MinRounds() && !outside.reflections(roundNo).value.continueSearch)
        || (roundNo >= MinRounds() && noProgressRounds >= 1
            && StrategySignature(lower, next.query) == StrategySignature(lower, strategy.query)))
      ensures error.None? && stop ==>
        && At() == Stopped(roundNo) && MinRounds() <= roundNo && stopReason == Some(StopReason(World(), roundNo))
        && stopReason == Some(
             if !outside.reflections(roundNo).value.continueSearch then outside.reflections(roundNo).value.reason
             else DUPLICATE_STRATEGY_REASON)
      ensures error.None? && !stop ==>
        && At() == Ready(roundNo) && roundNo < store.config.maxRounds && MayStart(next.query)
        && StrategyOf(World(), roundNo + 1) == Success(next)
    {
      hide RecordOk, HistoryOk, Kept, HistoryTells, SeenAt, PagesOk, NoIdleRepeat, PhaseOf, Shapes, Synced;
      hide NoProgressStreak, Streamed, Flatten, TableAfter, Batches, AskedFor, StrategyOf, Play, CallsFrom, DecideCalls;
      hide StrategySignature, EffectiveMinRounds, DeltaOf, ReflectionPayload, LastPayload, InStep, StreakOf, Ids;
      hide Active, LogSays, StopReason, OverrideNote, Then, MayStart, BuildSearchStrategy, TellsRounds, UpToShortlist;
      LastRequest(roundNo, strategy);
      ghost var w := World();
      PlayReflection(w, Played(None, sent), roundNo);
      NoRuleStops(w, roundNo);
      hide RuleStops, ReflectionStops, RoundsDone;
      stop := true;
      var output, shown;
      ghost var trace;
      error, output, next, shown, trace := ReflectRound(roundNo, strategy);
      if error.Some? {
        PlayStopped(w, Played(error, sent), roundNo);
        return;
      }
      ReflectionStopsIff(w, roundNo, strategy, next);
      ThenSave(w, sent);
      error, stop := StopOrGoOn(roundNo, strategy, output, next);
      if error.Some? {
        PlayStopped(w, Played(error, sent), roundNo);
      } else if !stop {
        MayGoOn(roundNo, strategy, next);
      }
    }

    /** What does not stop the run lets the next query be searched. */
    lemma MayGoOn(roundNo: nat, strategy: Strategy, next: Strategy)
      requires |requests| == roundNo > 0
      requires requests[roundNo - 1].signature == StrategySignature(lower, strategy.query)
      requires noProgressRounds == NoProgressStreak(batches, store.config.finalTopK)
      requires roundNo >= MinRounds() ==> noProgressRounds < 2
      requires roundNo >= MinRounds() && noProgressRounds >= 1 ==>
        StrategySignature(lower, next.query) != StrategySignature(lower, strategy.query)
      ensures MayStart(next.query)
    {
      hide NoProgressStreak, StrategySignature, EffectiveMinRounds;
    }

    /** After a reflection: stop if it asks to, or if it would repeat the query idly. */
    method StopOrGoOn(roundNo: nat, strategy: Strategy, output: ReflectionOutput, next: Strategy)
      returns (error: Option<Error>, stop: bool)
      requires Active() && unsaved == [] && At() == Ready(roundNo) && RoundsDone(roundNo) && roundNo > 0
      requires StrategyOf(World(), roundNo) == Success(strategy) && StrategyOf(World(), roundNo + 1) == Success(next)
      requires !RuleStops(World(), roundNo) && outside.reflections(roundNo).Success?
      requires noProgressRounds == StreakOf(World(), roundNo)
      requires var given: ReflectionOutput := outside.reflections(roundNo).value;
        && (output.continueSearch <==> given.continueSearch || roundNo < MinRounds())
        && (!output.continueSearch ==> output == given)
      modifies `run, `unsaved, `stopReason, `sent, store
      ensures Active()
      ensures stop <==>
        || !output.continueSearch
        || (roundNo >= MinRounds() && noProgressRounds >= 1
            && StrategySignature(lower, next.query) == StrategySignature(lower, strategy.query))
      ensures if stop then error == outside.patches(old(sent)) && sent == old(sent) + 1
              else error.None? && sent == old(sent) && At() == Ready(roundNo)
      ensures error.None? ==> unsaved == [] && RoundsDone(roundNo)
      ensures error.None? && stop ==>
        && At() == Stopped(roundNo)
        && stopReason == Some(if !output.continueSearch then output.reason else DUPLICATE_STRATEGY_REASON)
        && stopReason == Some(StopReason(World(), roundNo))
    {
      hide Active, InStep, TableAfter, EffectiveMinRounds, StrategySignature, Flatten, Ids, PhaseOf, Shapes;
      hide LogSays, StopIs, StopReason, RuleStops, StrategyOf, StreakOf, AskedFor, Batches;
      stop := true;
      if !output.continueSearch {
        StopByReflection(World(), roundNo);
        StopReasonIs(World(), roundNo, output.reason, "reflection", None);
        error := SaveStop(roundNo, "stop", output.reason, "reflection", None);
        return;
      }
      if && roundNo >= MinRounds() && StrategySignature(lower, next.query) == StrategySignature(lower, strategy.query)
         && noProgressRounds >= 1
      {
        StopByRepetition(World(), roundNo);
        StopReasonIs(World(), roundNo, DUPLICATE_STRATEGY_REASON, "duplicate-strategy",
                     Some(encoding.query(next.query)));
        error := SaveStop(roundNo, "duplicate strategy blocked", DUPLICATE_STRATEGY_REASON, "duplicate-strategy",
                          Some(encoding.query(next.query)));
        return;
      }
      return None, false;
    }

    /** The strategy in hand is the one the last request was made for, and the counter is its streak. */
    lemma LastRequest(roundNo: nat, strategy: Strategy)
      requires Active() && RoundsDone(roundNo) && roundNo > 0 && StrategyOf(World(), roundNo) == Success(strategy)
      ensures MinRounds() <= store.config.maxRounds && run.config == store.config
      ensures requests[roundNo - 1].signature == StrategySignature(lower, strategy.query)
      ensures noProgressRounds == StreakOf(World(), roundNo) == NoProgressStreak(batches, store.config.finalTopK)
    {
      hide StrategyOf, StrategySignature, NoProgressStreak, HistoryTells, HistoryOk, Kept, PagesOk, NoIdleRepeat;
      hide LogSays;
      assert RequestOf(World(), roundNo, requests[roundNo - 1]);
    }

    /** Search a page and admit what is new on it. */
    method FetchRound(roundNo: nat, fetchSize: int, strategy: Strategy)
      returns (error: Option<Error>, admitted: seq<Candidate>)
      requires Active() && unsaved == [] && roundNo > 0 && At() == Ready(roundNo - 1)
      requires store.currentRound == |requests| == |batches| == roundNo - 1
      requires roundNo <= store.config.maxRounds && fetchSize == store.config.roundFetchSchedule[roundNo - 1]
      requires StrategyOf(World(), roundNo) == Success(strategy) && MayStart(strategy.query)
      modifies `run, `unsaved, `strategyOffsets, `requests, `sent, store
      ensures Active()
      ensures Played(error, sent) ==
              Then(World(), Play(World(), Played(None, old(sent)), SearchCalls(roundNo)), Save)
      ensures error.None? ==>
        && unsaved == [] && At() == Deduped(roundNo) && store.currentRound == |requests| == roundNo
        && admitted == NewIn(World(), roundNo)
        && store.seenResumeIds == old(store.seenResumeIds) + ExternalIds(admitted)
    {
      hide NewIn, PageOf, StrategyOf, Play, SearchCalls, MayStart, Active, StrategySignature, EffectiveMinRounds;
      hide SearchPayload, LastPayload, LastStatus, PhaseOf, Shapes;
      admitted := [];
      var page;
      ghost var trace;
      error, page, trace := SearchRound(roundNo, fetchSize, strategy);
      if error.Some? {
        return;
      }
      error, admitted := DedupeRound(roundNo, page);
    }

    /** A round up to its shortlist: search, deduplicate, analyse, rank. */
    method ListRound(roundNo: nat, fetchSize: int, strategy: Strategy) returns (error: Option<Error>)
      requires Active() && unsaved == [] && roundNo > 0 && At() == Ready(roundNo - 1) && RoundsDone(roundNo - 1)
      requires roundNo <= store.config.maxRounds && fetchSize == store.config.roundFetchSchedule[roundNo - 1]
      requires StrategyOf(World(), roundNo) == Success(strategy) && MayStart(strategy.query)
      modifies this, store
      ensures Active()
      ensures Played(error, sent) == Play(World(), Played(None, old(sent)), RoundCalls(World(), roundNo))
      ensures error.None? ==> unsaved == [] && At() == Listed(roundNo) && RoundsDone(roundNo)
    {
      hide NoProgressStreak, Streamed, Flatten, TableAfter, BatchOf, NewIn, StrategyOf, Play, RoundCalls, SearchCalls;
      hide AnalysisCalls, MayStart, Active, StrategySignature, EffectiveMinRounds, PhaseOf, Shapes;
      ghost var w := World();
      PlayRound(w, Played(None, sent), roundNo);
      var admitted, analyzed;
      error, admitted := FetchRound(roundNo, fetchSize, strategy);
      if error.Some? {
        RoundFailed(w, Played(error, sent), roundNo);
        return;
      }
      error, analyzed := AnalyseRound(roundNo, admitted);
      if error.Some? {
        RoundFailed(w, Played(error, sent), roundNo);
        return;
      }
      error := RankRound(roundNo, |admitted|, analyzed);
    }

    method RunRound(roundNo: nat, fetchSize: int, strategy: Strategy)
      returns (error: Option<Error>, stop: bool, next: Strategy)
      requires Active() && unsaved == [] && roundNo > 0 && At() == Ready(roundNo - 1) && RoundsDone(roundNo - 1)
      requires roundNo <= store.config.maxRounds && fetchSize == store.config.roundFetchSchedule[roundNo - 1]
      requires StrategyOf(World(), roundNo) == Success(strategy) && MayStart(strategy.query)
      modifies this, store
      ensures Active()
      ensures Play(World(), Played(None, old(sent)), CallsFrom(World(), roundNo)) ==
              Play(World(), Played(error, sent), if stop then [Save] else CallsFrom(World(), roundNo + 1))
      ensures error.None? ==> unsaved == [] && RoundsDone(roundNo)
      ensures error.None? ==> (stop <==> RuleStops(World(), roundNo) || ReflectionStops(World(), roundNo))
      ensures error.None? && stop ==>
        At() == Stopped(roundNo) && MinRounds() <= roundNo && stopReason == Some(StopReason(World(), roundNo))
      ensures error.None? && !stop ==>
        && At() == Ready(roundNo) && roundNo < store.config.maxRounds && MayStart(next.query)
        && StrategyOf(World(), roundNo + 1) == Success(next)
    {
      hide RecordOk, HistoryOk, Kept, HistoryTells, SeenAt, PagesOk, NoIdleRepeat, PhaseOf, Shapes, InStep, Synced;
      hide TableAfter, Batches, AskedFor, StrategyOf, Play, RoundCalls, DecideCalls, RuleStops, ReflectionStops;
      hide Flatten;
      hide EffectiveMinRounds, MayStart, Active, RoundsDone, LogSays, StopReason, StrategySignature;
      ghost var w := World();
      RoundThenDecide(w, Played(None, sent), roundNo);
      stop, next := true, strategy;
      error := ListRound(roundNo, fetchSize, strategy);
      if error.Some? {
        RoundFailed(w, Played(error, sent), roundNo);
        return;
      }
      error, stop, next := DecideRound(roundNo, strategy);
    }

    /** Rounds until one of them stops; the schedule cannot run out first. */
    method RunRounds(first: Strategy) returns (error: Option<Error>, rounds: nat)
      requires Active() && unsaved == [] && At() == Ready(0) && RoundsDone(0)
      requires StrategyOf(World(), 1) == Success(first)
      modifies this, store
      ensures Active()
      ensures Play(World(), Played(None, old(sent)), CallsFrom(World(), 1)) ==
          Play(World(), Played(error, sent), [Save])
      ensures error.None? ==>
        && unsaved == [] && At() == Stopped(rounds) && RoundsDone(rounds)
        && MinRounds() <= rounds <= store.config.maxRounds && rounds == LastRound(World(), 1)
        && stopReason == Some(StopReason(World(), rounds))
    {
      hide RecordOk, HistoryOk, Kept, HistoryTells, SeenAt, PagesOk, NoIdleRepeat, PhaseOf, Shapes, Synced;
      hide NoProgressStreak, Streamed, Flatten, TableAfter, Batches, AskedFor, StrategyOf, Play, CallsFrom;
      hide InStep, MayStart, EffectiveMinRounds, RuleStops, ReflectionStops, LogSays, StopReason;
      ghost var w := World();
      error, rounds := None, 0;
      var strategy := first;
      MayStartFirst(first.query);
      SameView();
      var schedule := run.config.roundFetchSchedule;
      while rounds < |schedule|
        invariant rounds < |schedule| && schedule == store.config.roundFetchSchedule && error == None
        invariant Active() && unsaved == [] && At() == Ready(rounds) && RoundsDone(rounds) && MayStart(strategy.query)
        invariant StrategyOf(w, rounds + 1) == Success(strategy) && LastRound(w, 1) == LastRound(w, rounds + 1)
        invariant Play(w, Played(None, old(sent)), CallsFrom(w, 1)) ==
            Play(w, Played(None, sent), CallsFrom(w, rounds + 1))
      {
        var stop;
        error, stop, strategy := RunRound(rounds + 1, schedule[rounds], strategy);
        if error.Some? {
          PlayFailed(w, Played(error, sent), if stop then [Save] else CallsFrom(w, rounds + 2));
          PlayFailed(w, Played(error, sent), [Save]);
          return;
        }
        rounds := rounds + 1;
        if stop {
          break;
        }
      }
    }

    lemma MayStartFirst(q: SearchQuery)
      requires requests == []
      ensures MayStart(q)
    {
    }

    // -------------------------------------------------------------------------------------
    // The whole run
    // -------------------------------------------------------------------------------------

    method ExtractStrategy() returns (error: Option<Error>, strategy: Strategy)
      requires Active() && unsaved == [] && At() == Start
      modifies `run, `unsaved, `sent, store
      ensures Active()
      ensures Played(error, sent) == Then(World(), Then(World(), Played(None, old(sent)), Extract), Save)
      ensures error.None? ==>
        && unsaved == [] && At() == Ready(0) && StrategyOf(World(), 1) == Success(strategy)
        && outside.strategy.Success?
        && BuildSearchStrategy(store.jdText, outside.strategy.value.round1Query) == Success(strategy)
        && store.currentRound == old(store.currentRound) && store.seenResumeIds == old(store.seenResumeIds)
    {
      hide RecordOk, HistoryOk, Kept, HistoryTells, SeenAt, PagesOk, NoIdleRepeat, PhaseOf, Shapes;
      hide BuildSearchStrategy, AskedFor, Batches, CompactAll, LogSays, StrategySays, ExtractionPayload;
      strategy := Strategy("", SOME_QUERY);
      SameView();
      var answer := outside.strategy;
      if answer.Failure? {
        return Some(answer.error), strategy;
      }
      var output: StrategyOutput := answer.value;
      var built := NormalizedStrategy(run.jdText, output.round1Query);
      if built.Failure? {
        return Some(built.error), strategy;
      }
      strategy := built.value;
      var trace: Value := *;
      ExtractionPayloadSays(World(), trace);
      error := SaveRoundStep(
        None, StrategyStep, "Extract search strategy", "completed", output.summary,
        ExtractionPayload(output, encoding.query(output.round1Query), trace),
        None);
    }

    method FinalizeRun(rounds: nat) returns (error: Option<Error>, ghost trace: Value)
      requires Active() && unsaved == [] && At() == Stopped(rounds) && RoundsDone(rounds) && rounds > 0
      requires EndsAfter(World(), rounds) && stopReason == Some(StopReason(World(), rounds))
      modifies `run, `unsaved, `sent, store
      ensures error == outside.patches(old(sent)) && sent == old(sent) + 1
      ensures Sound()
      ensures error.Some? ==> Active()
      ensures error.None? ==>
        && unsaved == [] && At() == Finalized(rounds) && RoundsDone(rounds)
        && store.status == Completed && store.finished && store.errorCode == None && store.errorMessage == None
        && store.auditLog == [AuditCompleted(rounds, |store.finalShortlist|)]
        && LastPayload() == FinalizePayload(store.finalShortlist, stopReason, trace)
        && FinalizeSays(World(), rounds, LastPayload())
    {
      hide RecordOk, HistoryOk, Kept, HistoryTells, SeenAt, PagesOk, NoIdleRepeat, PhaseOf, Shapes, Synced, Streamed;
      hide Flatten, NoProgressStreak;
      hide TableAfter, AskedFor, TopK, LogSays, FinalizeSays, EndsAfter, StopReason, BatchOf, EffectiveMinRounds;
      hide FinalizePayload, PayloadSays, StatusSays, Savable, Next, SeenMatches;
      assert retained == RetainedAfter(World(), rounds);
      hide Batches, RetainedAfter;
      LastOk(store.history);
      RetainedIsStored();
      SameView();
      SameSeen(store.Value());
      FinalizeSavable(store.Value(), rounds);
      SeenAtNext(At(), Shape(FinalizeStep, Some(rounds)), store.seenResumeIds, requests);
      var finalizeTrace: Value := *;
      trace := finalizeTrace;
      FinalizeIsSaid(World(), rounds, trace);
      var p := EMPTY_PATCH.(status := Some(Completed), finalShortlist := Some(retained), markFinished := true);
      error := SaveStep(
        RoundOrNone(run.currentRound), FinalizeStep, "Finalize shortlist", "completed", "",
        FinalizePayload(retained, stopReason, finalizeTrace), p);
    }

    /** The body of the `try`: everything between the first patch and the final one. */
    method RunToCompletion() returns (error: Option<Error>)
      requires Active() && unsaved == [] && At() == Start && RoundsDone(0)
      modifies this, store
      ensures Sound()
      ensures Played(error, sent) == Play(World(), Played(None, old(sent)), BodyCalls(World()))
      ensures error.Some? ==> Active()
      ensures error.None? ==>
        && unsaved == [] && At() == Finalized(store.currentRound)
        && CompletedRun(store.Value(), batches, requests, World()) && store.status == Completed && store.finished
        && store.auditLog == [AuditCompleted(store.currentRound, |store.finalShortlist|)]
    {
      hide RecordOk, HistoryOk, Kept, HistoryTells, SeenAt, PagesOk, NoIdleRepeat, PhaseOf, Shapes, Synced, Streamed;
      hide Flatten, NoProgressStreak, StrategyOf, TableAfter, Batches, AskedFor, Play, CallsFrom;
      hide InStep, LastRound, CompletedRun, EffectiveMinRounds, LogSays, EndsAfter, StopReason, RuleStops;
      hide ReflectionStops, FinalizeSays;
      ghost var w, start := World(), Played(None, sent);
      PlayAppend(w, start, [Extract, Save], CallsFrom(w, 1));
      PlayTwo(w, start, Extract, Save);
      var strategy;
      error, strategy := ExtractStrategy();
      if error.Some? {
        PlayFailed(w, Played(error, sent), CallsFrom(w, 1));
        return;
      }
      var rounds;
      error, rounds := RunRounds(strategy);
      PlayOne(w, Played(error, sent), Save);
      if error.Some? {
        return;
      }
      LastRoundMeaning(w, 1);
      EndsIffStops(w, rounds);
      ghost var trace;
      error, trace := FinalizeRun(rounds);
      if error.None? {
        MakesCompleted(rounds);
      }
    }

    lemma MakesCompleted(rounds: nat)
      requires Sound() && RoundsDone(rounds) && At() == Finalized(rounds)
      requires store.status == Completed && store.finished && store.errorCode == None && store.errorMessage == None
      requires MinRounds() <= rounds <= store.config.maxRounds && rounds == LastRound(World(), 1)
      ensures CompletedRun(store.Value(), batches, requests, World())
    {
      hide HistoryOk, Kept, HistoryTells, SeenAt, PagesOk, NoIdleRepeat, Batches, AskedFor, TableAfter, LastRound;
      hide Synced, LogSays;
      hide PhaseOf, Shapes, TopK;
      StreamedIsBatch(batches, store.config.finalTopK);
      RetainedIsStored();
    }

    /** The handler of the `except`: record the failure, whatever the view is ahead by. */
    method FailRun(cause: Error) returns (error: Option<Error>)
      requires Active()
      modifies `run, `unsaved, `sent, store
      ensures error == outside.patches(old(sent)) && sent == old(sent) + 1
      ensures Sound()
      ensures error.Some? ==> Active()
      ensures error.None? ==>
        && unsaved == [] && At() == old(At()) && store.status == Failed && store.finished
        && store.steps == old(store.steps) && store.finalShortlist == old(store.finalShortlist)
        && store.errorCode == Some(cause.code) && store.errorMessage == Some(cause.message)
        && store.auditLog == [AuditFailed(Some(cause.code), Some(cause.message))]
    {
      hide RecordOk, HistoryOk, Kept, HistoryTells, SeenAt, PagesOk, NoIdleRepeat, PhaseOf, Shapes, Synced;
      hide LogSays;
      assert store.steps + [] == store.steps;
      error := SavePatch(EMPTY_PATCH.(
        status := Some(Failed), errorCode := Some(Some(cause.code)), errorMessage := Some(Some(cause.message)),
        markFinished := true));
    }

    /** What follows the body: the failure patch if it failed, and the trace either way. */
    method Conclude(error: Option<Error>) returns (outcome: Outcome)
      requires Sound()
      requires error.Some? ==> Active()
      requires error.None? ==>
        && unsaved == [] && At() == Finalized(store.currentRound)
        && CompletedRun(store.Value(), batches, requests, World()) && store.status == Completed && store.finished
        && store.auditLog == [AuditCompleted(store.currentRound, |store.finalShortlist|)]
      modifies `run, `unsaved, `sent, store
      ensures Sound() && Concluded(outcome, store.Value(), store.auditLog, error)
      ensures outcome == Ending(World(), Played(error, old(sent)))
      ensures outcome == Returned(Completed) ==> CompletedRun(store.Value(), batches, requests, World())
      ensures outcome.Returned? ==>
        TracePublished(World(), Played(error, old(sent)), store.Value(), store.traceId, store.traceUrl)
    {
      hide RecordOk, HistoryOk, Kept, HistoryTells, SeenAt, PagesOk, NoIdleRepeat, PhaseOf, Shapes, CompletedRun, Has;
      hide Synced, EffectiveMinRounds, LogSays;
      if error.Some? {
        var unrecorded := FailRun(error.value);
        if unrecorded.Some? {
          return Raised(unrecorded.value);
        }
        PublishTraceQuietly("failed");
        return Returned(Failed);
      }
      ghost var finished := store.Value();
      PublishTraceQuietly("completed");
      StillCompleted(finished, store.Value(), batches, requests, World());
      return Returned(Completed);
    }

    /** From the loaded snapshot to the end: the `running` patch is sent outside the `try`. */
    method StartRun() returns (outcome: Outcome)
      requires Sound() && unsaved == [] && sent == 0 && RoundsDone(0) && At() == Start && Normalised(store.config)
      requires store.status == Queued && !store.finished && store.auditLog == []
      modifies this, store
      ensures Sound() && Concluded(outcome, store.Value(), store.auditLog, BodyPlayed(World()).error)
      ensures outcome ==
        if outside.patches(0).Some? then Raised(outside.patches(0).value) else Ending(World(), BodyPlayed(World()))
      ensures outcome == Returned(Completed) ==> CompletedRun(store.Value(), batches, requests, World())
      ensures outcome.Returned? ==>
        TracePublished(World(), BodyPlayed(World()), store.Value(), store.traceId, store.traceUrl)
    {
      hide RecordOk, HistoryOk, Kept, HistoryTells, SeenAt, PagesOk, NoIdleRepeat, PhaseOf, Shapes, Streamed, Flatten;
      hide NoProgressStreak, CompletedRun, EffectiveMinRounds, CompactAll, TableAfter, BodyCalls, Play, Batches;
      hide AskedFor, Synced, LogSays, TracePublished;
      var error := SavePatch(EMPTY_PATCH.(status := Some(Running), clearError := true));
      if error.Some? {
        return Raised(error.value);
      }
      error := RunToCompletion();
      outcome := Conclude(error);
    }

    /** Trace publication may fail, and so may saving the warning about it: either way the record
        keeps everything but its steps, and those gain at most the warning. */
    method PublishTraceQuietly(terminalStatus: string)
      requires Sound() && unsaved == [] && (store.status == Completed || store.status == Failed) && !At().Warned?
      requires terminalStatus == "completed" || terminalStatus == "failed"
      modifies `run, `unsaved, `sent, store
      ensures Sound()
      ensures store.Value().(steps := []) == old(store.Value()).(steps := []) && store.auditLog == old(store.auditLog)
      ensures outside.publication.Published? ==>
        store.traceId == outside.publication.traceId && store.traceUrl == outside.publication.traceUrl
      ensures
        if outside.publication.Published? || outside.patches(old(sent)).Some?
        then store.steps == old(store.steps) && At() == old(At())
        else (|store.steps| == |old(store.steps)| + 1 && old(store.steps) <= store.steps && At() == Warned(old(At()))
            && store.steps[|store.steps| - 1].roundNo == RoundOrNone(store.currentRound)
            && Has(LastPayload(), "terminalStatus", Str(terminalStatus)) && WarningSays(World(), LastPayload()))
    {
      hide RecordOk, HistoryOk, Kept, HistoryTells, SeenAt, PagesOk, NoIdleRepeat, Stage, SeenMatches, Patched;
      hide Savable, Next, Normalised, CompactAll, LogSays, AskedFor, Batches, WarningPayload, PayloadSays, WarningSays;
      hide EffectiveMinRounds, Has, StatusSays;
      if outside.publication.Published? {
        store.RecordTrace(outside.publication.traceId, outside.publication.traceUrl);
        return;
      }
      var failure := outside.publication.failure;
      var message := if failure != "" then failure else "Langfuse trace publication failed.";
      var trace: Value := *;
      LastOk(store.history);
      SameSeen(store.Value());
      var payload := WarningPayload(terminalStatus, message, trace);
      ghost var step := NewStep(store.steps, RoundOrNone(run.currentRound), WarningStep, WARNING_TITLE, "failed",
                                WARNING_SUMMARY, payload);
      WarningSavable(store.Value(), step);
      SeenAtNext(At(), ShapeOf(step), store.seenResumeIds, requests);
      WarningIsSaid(World(), terminalStatus, trace, RoundOrNone(run.currentRound));
      var swallowed := SaveStep(
        RoundOrNone(run.currentRound), WarningStep, WARNING_TITLE, "failed", WARNING_SUMMARY, payload, EMPTY_PATCH);
    }
  }

  const WARNING_TITLE := "Langfuse trace publication failed"
  const WARNING_SUMMARY := "Langfuse trace publication failed after the run had already reached a terminal state."

  lemma {:induction false} WarningSavable(r: Run, s: Step)
    requires RecordOk(r) && SeenMatches(r, EMPTY_PATCH, []) && !Stage(r).Warned? && s.stepType == WarningStep
    ensures Savable(r, EMPTY_PATCH, ShapeOf(s), s.payload) && Next(Stage(r), ShapeOf(s)) == Warned(Stage(r))
    ensures Patched(r, EMPTY_PATCH.(appendSteps := [s])) == r.(steps := r.steps + [s])
  {
  }

  /** Every analysis step of an ordered record holds objects, so the ones a ledger reads do. */
  lemma {:induction false} ReadEntriesAreObjects(r: Run)
    requires RecordOk(r)
    ensures Ledger.LedgerEntriesAreObjects(r.steps)
  {
    hide Ledger.ObjectEntries, Ledger.LastStep, CompactAll, PhaseOf, Shapes, AdmittedIds;
    forall n | Ledger.LastStep(r.steps, n, AnalysisStep).Some?
      ensures Ledger.ObjectEntries(Ledger.LastStep(r.steps, n, AnalysisStep).value)
    {
      Ledger.LastCompacted(r.steps, n, AnalysisStep);
    }
  }

  /** What the deduplication of a round's page found may be saved, and is what the answers say. */
  lemma {:induction false} DedupeReady(
      w: Scenario, r: nat, before: Run, requests: seq<Requested>, page: SearchPage, admitted: seq<Candidate>,
      duplicateIds: seq<string>, updatedSeen: seq<string>, trace: Value)
    requires r > 0 && |requests| == r && AskedFor(w, requests) && page == PageOf(w, r)
    requires SeenAt(Searched(r), before.seenResumeIds, requests) && Distinct(before.seenResumeIds)
    requires admitted == Admitted(before.seenResumeIds, page.candidates)
    requires duplicateIds == Duplicates(before.seenResumeIds, page.candidates)
    requires updatedSeen == before.seenResumeIds + ExternalIds(admitted)
    ensures var o := DedupePayload(admitted, duplicateIds, |updatedSeen|, trace);
      && admitted == NewIn(w, r) && DedupeSays(w, r, o)
      && SeenMatches(before, EMPTY_PATCH.(seenResumeIds := Some(updatedSeen)),
                     Ledger.PayloadList(Get(o, "admittedResumeIds")))
      && SeenAt(Deduped(r), updatedSeen, requests)
  {
    hide SeenAt, RequestOf, DedupeSays, DedupePayload, Admitted, Duplicates;
    SeenBefore(w, r, before.seenResumeIds, requests);
    assert RequestOf(w, r, requests[r - 1]);
    PageAsked(w, r, requests[r - 1]);
    hide AskedFor, PageOf, NewIn, SeenBy;
    SeenStaysDistinct(before.seenResumeIds, page.candidates);
    SeenAtDedupe(r, before.seenResumeIds, requests);
    DedupePayloadAdmitted(admitted, duplicateIds, |updatedSeen|, trace);
    assert updatedSeen[|before.seenResumeIds|..] == ExternalIds(admitted);
    DedupePayloadSays(w, r, trace);
  }

  lemma {:induction false} PageAsked(w: Scenario, r: nat, q: Requested)
    requires RequestOf(w, r, q)
    ensures q.candidates == PageOf(w, r).candidates
  {
  }

  /** The ranking that a round's pair of steps stores is the one after that round. */
  lemma {:induction false} PairSays(
      w: Scenario, r: nat, batches: seq<seq<Shortlisted>>, before: seq<Shortlisted>, shortlist: seq<Shortlisted>)
    requires r > 0 && |batches| == r - 1 && batches == Batches(w, r - 1)
    requires before == Streamed(batches, w.config.finalTopK)
    requires shortlist == TopK(before + BatchOf(w, r), w.config.finalTopK)
    ensures shortlist == RetainedAfter(w, r)
  {
    hide BatchOf, TopK, Streamed;
    RetainedNext(w, r);
  }

  lemma {:induction false} PairSaid(
      w: Scenario, steps: seq<Step>, a: Step, b: Step, r: nat, shortlist: seq<Shortlisted>, analyzed: seq<Shortlisted>,
      trace: Value, pairTrace: Value)
    requires LogSays(w, steps) && r > 0
    requires ShapeOf(a) == Shape(AnalysisStep, Some(r)) && ShapeOf(b) == Shape(ShortlistStep, Some(r))
    requires a.status == b.status == "completed"
    requires analyzed == BatchOf(w, r) && shortlist == RetainedAfter(w, r)
    requires a.payload == AnalysisPayload(analyzed, trace)
    requires b.payload == ShortlistPayload(shortlist, analyzed, pairTrace)
    ensures LogSays(w, steps + [a, b])
  {
    hide LogSays, AnalysisSays, ShortlistSays, BatchOf, RetainedAfter, AnalysisPayload, ShortlistPayload;
    AnalysisPayloadSays(w, r, trace);
    ShortlistPayloadSays(w, r, pairTrace);
    LogSaysMore(w, steps, a);
    LogSaysMore(w, steps + [a], b);
    assert steps + [a, b] == steps + [a] + [b];
  }

  /** Saving a round's pair of steps adds its batch to all that the committed records tell and say. */
  lemma {:induction false} SavedPairSound(
      w: Scenario, history: seq<Run>, r: Run, a: Step, b: Step, roundNo: nat, batches: seq<seq<Shortlisted>>,
      requests: seq<Requested>, shortlist: seq<Shortlisted>, trace: Value, pairTrace: Value)
    requires HistoryOk(history) && history != [] && history[|history| - 1] == r && r.status == Running
    requires Kept(r, batches) && HistoryTells(history, batches, requests) && LogSays(w, r.steps)
    requires Stage(r) == Deduped(roundNo) && |batches| + 1 == roundNo && batches == Batches(w, |batches|)
    requires SeenAt(Stage(r), r.seenResumeIds, requests) && r.config == w.config
    requires r.finalShortlist == Streamed(batches, r.config.finalTopK)
    requires a.stepNo == |r.steps| + 1 && ShapeOf(a) == Shape(AnalysisStep, Some(roundNo))
    requires b.stepNo == |r.steps| + 2 && ShapeOf(b) == Shape(ShortlistStep, Some(roundNo))
    requires a.status == b.status == "completed"
    requires a.payload == AnalysisPayload(BatchOf(w, roundNo), trace)
    requires b.payload == ShortlistPayload(shortlist, BatchOf(w, roundNo), pairTrace)
    requires shortlist == TopK(r.finalShortlist + BatchOf(w, roundNo), r.config.finalTopK)
    requires forall x :: x in BatchOf(w, roundNo) ==> x.sourceRound == roundNo
    requires r.seenResumeIds == Ids(Flatten(batches)) + Ids(BatchOf(w, roundNo))
    ensures var after := Patched(r, EMPTY_PATCH.(finalShortlist := Some(shortlist), appendSteps := [a, b]));
      var more := batches + [BatchOf(w, roundNo)];
      && HistoryOk(history + [after]) && Kept(after, more) && HistoryTells(history + [after], more, requests)
      && Stage(after) == Listed(roundNo) && SeenAt(Stage(after), after.seenResumeIds, requests)
      && LogSays(w, after.steps)
      && after == r.(steps := r.steps + [a, b], finalShortlist := shortlist)
  {
    hide Patched, RecordOk, MayFollow, HistoryOk, Kept, HistoryTells, SeenAt, LogSays, Stage, TopK, Flatten, Streamed;
    hide BatchOf, AnalysisPayload, ShortlistPayload, Batches, RetainedAfter, Ids;
    LastOk(history);
    var analyzed := BatchOf(w, roundNo);
    var after := Patched(r, EMPTY_PATCH.(finalShortlist := Some(shortlist), appendSteps := [a, b]));
    PairSays(w, roundNo, batches, r.finalShortlist, shortlist);
    PairSaid(w, r.steps, a, b, roundNo, shortlist, analyzed, trace, pairTrace);
    PairKept(r, a, b, roundNo, batches, analyzed, shortlist, trace, pairTrace);
    HistoryAppend(history, after);
    SeenAtPair(roundNo, r.seenResumeIds, requests);
    TellsMore(history, batches, requests, batches + [analyzed], requests);
    TellsAppend(history, batches + [analyzed], requests, after);
  }

  lemma {:induction false} PairKept(
      r: Run, a: Step, b: Step, roundNo: nat, batches: seq<seq<Shortlisted>>, analyzed: seq<Shortlisted>,
      shortlist: seq<Shortlisted>, trace: Value, pairTrace: Value)
    requires RecordOk(r) && Kept(r, batches) && r.status == Running
    requires Stage(r) == Deduped(roundNo) && |batches| + 1 == roundNo
    requires a.stepNo == |r.steps| + 1 && ShapeOf(a) == Shape(AnalysisStep, Some(roundNo))
    requires b.stepNo == |r.steps| + 2 && ShapeOf(b) == Shape(ShortlistStep, Some(roundNo))
    requires a.payload == AnalysisPayload(analyzed, trace)
    requires b.payload == ShortlistPayload(shortlist, analyzed, pairTrace)
    requires shortlist == TopK(r.finalShortlist + analyzed, r.config.finalTopK)
    requires forall x :: x in analyzed ==> x.sourceRound == roundNo
    requires r.seenResumeIds == Ids(Flatten(batches)) + Ids(analyzed)
    ensures var after := Patched(r, EMPTY_PATCH.(finalShortlist := Some(shortlist), appendSteps := [a, b]));
      && RecordOk(after) && MayFollow(r, after) && Stage(after) == Listed(roundNo)
      && Kept(after, batches + [analyzed])
      && after == r.(steps := r.steps + [a, b], finalShortlist := shortlist)
  {
    hide RecordOk, MayFollow, PhaseOf, Shapes, TopK, Flatten, Streamed, RetainedLog, RetainedAfterEach, AnalysisPayload;
    hide AnalysisLog, TellBatches, TellEntries;
    var p := EMPTY_PATCH.(finalShortlist := Some(shortlist));
    StreamedAppend(batches, analyzed, r.config.finalTopK);
    StreamedAreSeen(batches + [analyzed], r.config.finalTopK, r.seenResumeIds);
    AnalysisPayloadObjects(analyzed, trace);
    AnalysisStepTells(a, analyzed, trace, roundNo);
    SavedPairOk(r, p, a, b, roundNo);
    ShortlistPayloadRetained(shortlist, analyzed, pairTrace);
    KeptPair(r, Patched(r, p.(appendSteps := [a, b])), a, b, batches, analyzed);
  }

  lemma {:induction false} RoundThenDecide(w: Scenario, p: Played, r: nat)
    ensures Play(w, p, CallsFrom(w, r)) == Play(w, Play(w, p, RoundCalls(w, r)), DecideCalls(w, r))
  {
    PlayAppend(w, p, RoundCalls(w, r), DecideCalls(w, r));
  }

  lemma {:induction false} RoundFailed(w: Scenario, p: Played, r: nat)
    requires p.error.Some?
    ensures forall c :: Then(w, p, c) == p
    ensures Play(w, p, AnalysisCalls(w, r)) == p && Play(w, p, DecideCalls(w, r)) == p && Play(w, p, [Save]) == p
  {
    PlayFailed(w, p, AnalysisCalls(w, r));
    PlayFailed(w, p, DecideCalls(w, r));
    PlayFailed(w, p, [Save]);
  }

  lemma {:induction false} RunningIsNotFinal(r: Run)
    requires RecordOk(r) && r.status == Running
    ensures !Final(Stage(r))
    ensures forall x :: x in r.finalShortlist ==> x.Id() in r.seenResumeIds
  {
  }

  lemma {:induction false} FinalizeSavable(r: Run, rounds: nat)
    requires RecordOk(r) && r.status == Running && Stage(r) == Stopped(rounds) && SeenMatches(r, EMPTY_PATCH, [])
    ensures Next(Stage(r), Shape(FinalizeStep, Some(rounds))) == Finalized(rounds)
    ensures forall payload, p ::
      p == EMPTY_PATCH.(status := Some(Completed), finalShortlist := Some(r.finalShortlist), markFinished := true) ==>
        Savable(r, p, Shape(FinalizeStep, Some(rounds)), payload)
  {
  }

  lemma {:induction false} SavableInRound(r: Run, p: Patch, s: Shape, payload: Object)
    requires RecordOk(r) && r.status == Running
    requires p == EMPTY_PATCH.(seenResumeIds := p.seenResumeIds)
    requires s.stepType != AnalysisStep && Settled(Next(Stage(r), s)) && !Final(Next(Stage(r), s))
    requires SeenMatches(
      r, p, if s.stepType == DedupeStep then Ledger.PayloadList(Get(payload, "admittedResumeIds")) else [])
    ensures Savable(r, p, s, payload)
  {
  }

  lemma {:induction false} NoRuleStops(w: Scenario, r: nat)
    requires !RuleStops(w, r)
    ensures r < w.config.maxRounds && (r >= w.minRounds ==> StreakOf(w, r) < 2)
  {
  }

  lemma {:induction false} ThenSave(w: Scenario, sent: nat)
    ensures Then(w, Played(None, sent), Save) == Played(w.outside.patches(sent), sent + 1)
  {
  }

  lemma {:induction false} ReflectionStopsIff(w: Scenario, r: nat, strategy: Strategy, next: Strategy)
    requires StrategyOf(w, r) == Success(strategy) && StrategyOf(w, r + 1) == Success(next)
    requires w.outside.reflections(r).Success?
    ensures ReflectionStops(w, r) <==>
      || (r >= w.minRounds && !w.outside.reflections(r).value.continueSearch)
      || (r >= w.minRounds && StreakOf(w, r) >= 1
          && StrategySignature(w.lower, next.query) == StrategySignature(w.lower, strategy.query))
  {
    hide StrategyOf, StrategySignature, StreakOf;
  }

  lemma {:induction false} StopReasonIs(
      w: Scenario, r: nat, reason: string, source: string, duplicate: Option<Value>)
    requires StopIs(w, r, reason, source, duplicate)
    ensures reason == StopReason(w, r)
  {
  }

  /** What a completed run left behind. */
  ghost predicate CompletedRun(r: Run, batches: seq<seq<Shortlisted>>, requests: seq<Requested>, w: Scenario) {
    && r.status == Completed && r.finished && r.errorCode == None && r.errorMessage == None
    && w.minRounds <= r.currentRound <= r.config.maxRounds && r.currentRound == LastRound(w, 1)
    && (Stage(r) == Finalized(r.currentRound) || Stage(r) == Warned(Finalized(r.currentRound)))
    && |batches| == |requests| == r.currentRound
    && Ids(Flatten(batches)) == r.seenResumeIds
    && r.finalShortlist == TopK(Flatten(batches), r.config.finalTopK)
  }

  lemma {:induction false} StillCompleted(
      before: Run, after: Run, batches: seq<seq<Shortlisted>>, requests: seq<Requested>, w: Scenario)
    requires CompletedRun(before, batches, requests, w) && Stage(before) == Finalized(before.currentRound)
    requires after.(steps := []) == before.(steps := [])
    requires Stage(after) == Stage(before) || Stage(after) == Warned(Stage(before))
    ensures CompletedRun(after, batches, requests, w)
  {
    hide Stage, Flatten, TopK, LastRound;
  }

  /** What the publication of the trace leaves behind when the body was played to `p`: the trace as answered
      and no warning; or, when it failed, a warning naming the status of the run exactly if its patch, the
      one after all others, is taken. */
  ghost predicate TracePublished(
      w: Scenario, p: Played, r: Run, traceId: Option<string>, traceUrl: Option<string>)
  {
    && (Stage(r).Warned? ==>
          && r.steps != []
          && Has(r.steps[|r.steps| - 1].payload, "terminalStatus",
                 Str(if r.status == Completed then "completed" else "failed")))
    && match w.outside.publication
       case Published(id, url) => !Stage(r).Warned? && traceId == id && traceUrl == url
       case NotPublished(_) =>
         Stage(r).Warned? <==> w.outside.patches(if p.error.None? then p.sent else p.sent + 1).None?
  }

  /** How a run ends whose body was played to `p`: completed without a failure; with one, failed if the
      patch that records it is taken. */
  function Ending(w: Scenario, p: Played): Outcome {
    if p.error.None? then Returned(Completed)
    else if w.outside.patches(p.sent).None? then Returned(Failed)
    else Raised(w.outside.patches(p.sent).value)
  }

  /** The outcome that the outside decides: loading, the `running` patch, then the body. */
  function Expected(w: Scenario): Outcome {
    if w.outside.load.Some? then Raised(w.outside.load.value)
    else if w.outside.patches(0).Some? then Raised(w.outside.patches(0).value)
    else Ending(w, BodyPlayed(w))
  }

  /** The outcome is what the record says: a returned status is the stored terminal status, with
      exactly one audit entry, which matches it and names the cause of a failure; a workflow that
      raises left the run open. */
  ghost predicate Concluded(outcome: Outcome, r: Run, auditLog: seq<Audit>, cause: Option<Error>) {
    match outcome
    case Raised(_) => (r.status == Queued || r.status == Running) && !r.finished && auditLog == []
    case Returned(status) =>
      && status == r.status && r.finished
      && ((status == Completed && auditLog == [AuditCompleted(r.currentRound, |r.finalShortlist|)])
          || (status == Failed && cause.Some?
              && r.errorCode == Some(cause.value.code) && r.errorMessage == Some(cause.value.message)
              && auditLog == [AuditFailed(r.errorCode, r.errorMessage)]))
  }

  /** The execution of a fresh run, whatever the outside answers and wherever it fails. */
  method ExecuteAgentRun(
      store: RunStore, outside: Outside, lower: string -> string, agentMinRounds: int, encoding: Encoding)
    returns (outcome: Outcome, ghost batches: seq<seq<Shortlisted>>, ghost requests: seq<Requested>,
             ghost offsets: map<Signature, nat>)
    requires Normalised(store.config) && store.status == Queued && !store.finished && store.currentRound == 0
    requires store.steps == [] && store.seenResumeIds == [] && store.finalShortlist == []
    requires store.auditLog == [] && store.history == [store.Value()]
    modifies store
    ensures HistoryOk(store.history) && store.history != [] && store.history[|store.history| - 1] == store.Value()
    ensures outside.load.Some? ==> outcome == Raised(outside.load.value)
    ensures outside.load.None? && outside.patches(0).Some? ==> outcome == Raised(outside.patches(0).value)
    ensures Kept(store.Value(), batches) && HistoryTells(store.history, batches, requests)
    ensures PagesOk(requests, offsets, store.config.roundFetchSchedule)
    ensures var w := ScenarioOf(store, outside, lower, agentMinRounds, encoding);
      && LogSays(w, store.steps)
      && outcome == Expected(w) && Concluded(outcome, store.Value(), store.auditLog, BodyPlayed(w).error)
      && batches == Batches(w, |batches|) && AskedFor(w, requests)
      && NoIdleRepeat(requests, batches, w.minRounds, store.config.finalTopK)
      && (outcome == Returned(Completed) ==> CompletedRun(store.Value(), batches, requests, w))
      && (outcome.Returned? ==> TracePublished(w, BodyPlayed(w), store.Value(), store.traceId, store.traceUrl))
  {
    hide RecordOk, HistoryOk, Kept, HistoryTells, SeenAt, PagesOk, NoIdleRepeat, PhaseOf, Shapes, Streamed, Flatten;
    hide NoProgressStreak, CompletedRun, EffectiveMinRounds, CompactAll, Ids, TableAfter, BodyPlayed, Ending, Batches;
    hide AskedFor, LogSays, TracePublished;
    batches, requests, offsets := [], [], map[];
    ghost var w := ScenarioOf(store, outside, lower, agentMinRounds, encoding);
    FreshRun(store.Value(), w);
    if outside.load.Some? {
      return Raised(outside.load.value), batches, requests, offsets;
    }
    var snapshot := store.Load();
    var state := new AgentRun(store, outside, lower, agentMinRounds, encoding, snapshot);
    assert store.steps + [] == store.steps;
    outcome := state.StartRun();
    return outcome, state.batches, state.requests, state.strategyOffsets;
  }

  ghost function ScenarioOf(
      store: RunStore, outside: Outside, lower: string -> string, agentMinRounds: int, encoding: Encoding): Scenario {
    Scenario(outside, store.jdText, store.config, EffectiveMinRounds(agentMinRounds, store.config), lower, encoding)
  }

  lemma {:induction false} FreshRun(r: Run, w: Scenario)
    requires r.status == Queued && r.steps == [] && r.seenResumeIds == [] && r.finalShortlist == []
    ensures HistoryOk([r]) && Kept(r, []) && Stage(r) == Start
    ensures SeenAt(Start, [], []) && HistoryTells([r], [], [])
    ensures Batches(w, 0) == [] && AskedFor(w, []) && TableAfter(w, 0) == map[] && LogSays(w, [])
    ensures PagesOk([], map[], r.config.roundFetchSchedule) && NoIdleRepeat([], [], w.minRounds, r.config.finalTopK)
    ensures Ids(Flatten([])) == [] && NoProgressStreak([], r.config.finalTopK) == 0
  {
    EmptyRecordOk(r);
    TellsAppend([], [], [], r);
  }
}
