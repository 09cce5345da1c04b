/** What the invariants of an executed run mean for a reader of its record. */
module RunGuarantees {
  import opened Wrappers
  import opened Json
  import opened Query
  import opened Rounds
  import opened ResumeSource
  import opened Paging
  import opened Shortlist
  import opened RunLog
  import opened LogGrammar
  import opened RunRecord
  import opened Progress
  import opened OutsideWorld
  import opened LogContents
  import opened Execution

  /** The strategy, every round but the last ending in a reflection, the last round with its only
      stop step (right after the shortlist or after one more reflection), and the finalize step. */
  ghost predicate FinishedForm(log: seq<Shape>, rounds: nat) {
    && rounds > 0
    && var front := FullRounds(rounds - 1) + RoundSteps(rounds);
       || log == front + [Shape(StopStep, Some(rounds)), Shape(FinalizeStep, Some(rounds))]
       || log == front + [Shape(ReflectionStep, Some(rounds)), Shape(StopStep, Some(rounds)),
                         Shape(FinalizeStep, Some(rounds))]
  }

  /** The log of a completed run is finished, up to at most one warning at its end. */
  lemma {:induction false} CompletedLogForm(
      r: Run, batches: seq<seq<Shortlisted>>, requests: seq<Requested>, w: Scenario)
    requires CompletedRun(r, batches, requests, w)
    ensures var log, rounds := Shapes(r.steps), r.currentRound;
      || FinishedForm(log, rounds)
      || (log != [] && log[|log| - 1].stepType == WarningStep && FinishedForm(log[..|log| - 1], rounds))
    ensures Count(Shapes(r.steps), SearchStep) == r.currentRound && Count(Shapes(r.steps), StopStep) == 1
  {
    hide FinishedForm, FullRounds, RoundSteps, PhaseOf, TopK, Flatten, LastRound;
    var log := Shapes(r.steps);
    GrammarMeaning(log, Stage(r));
    StepCounts(log);
    FinalizedForm(if Stage(r).Finalized? then log else log[..|log| - 1], r.currentRound);
  }

  lemma {:induction false} FinalizedForm(log: seq<Shape>, rounds: nat)
    requires HasForm(log, Finalized(rounds))
    ensures FinishedForm(log, rounds)
  {
  }

  /** A run that is not completed has a log that may still be continued to a completed one: up to one
      warning it is a form without finalize step, and it does not end between analysis and shortlist. */
  lemma {:induction false} UnfinishedLogForm(r: Run)
    requires RecordOk(r) && r.status != Completed
    ensures Count(Shapes(r.steps), StopStep) <= 1
    ensures
      var p, log := Stage(r), Shapes(r.steps);
      if p.Warned? then
        && log != [] && log[|log| - 1].stepType == WarningStep
        && HasForm(log[..|log| - 1], p.before)
        && !p.before.Warned? && !p.before.Bad? && !p.before.Analysed? && !p.before.Finalized?
      else HasForm(log, p) && !p.Bad? && !p.Analysed? && !p.Finalized?
  {
    hide FullRounds, RoundSteps, PhaseOf, AdmittedIds, Numbered, ObjectAnalyses, Strings, Distinct;
    var p, log := Stage(r), Shapes(r.steps);
    assert Settled(p) && !Final(p);
    GrammarMeaning(log, p);
    StepCounts(log);
    assert HasForm(log, p);
    if p.Warned? {
      assert Settled(p.before);
      assert log[|log| - 1].stepType == WarningStep && HasForm(log[..|log| - 1], p.before);
    }
  }

  /** No resume is analysed twice in a run. */
  lemma {:induction false} NoResumeAnalysedTwice(r: Run, batches: seq<seq<Shortlisted>>)
    requires RecordOk(r) && Kept(r, batches)
    ensures Distinct(Ids(Flatten(batches)))
  {
  }

  /** From one round of a run to the next the shortlist does not get shorter and no rank loses score. */
  lemma {:induction false} RanksNeverFall(batches: seq<seq<Shortlisted>>, k: int, i: nat, j: nat)
    requires i <= j <= |batches|
    ensures var earlier, later := Streamed(batches[..i], k), Streamed(batches[..j], k);
      && |earlier| <= |later|
      && forall x :: 0 <= x < |earlier| ==> later[x].score >= earlier[x].score
  {
    if i < j {
      hide Flatten, TopK, Streamed;
      RanksNeverFall(batches, k, i, j - 1);
      var before, all := batches[..j - 1], batches[..j];
      assert all == before + [batches[j - 1]];
      StreamedIsBatch(before, k);
      StreamedIsBatch(all, k);
      FlattenLast(before, batches[j - 1]);
      ShortlistImproves(Flatten(before), batches[j - 1], k);
    }
  }

  lemma {:induction false} FlattenLast<T>(batches: seq<seq<T>>, batch: seq<T>)
    ensures Flatten(batches + [batch]) == Flatten(batches) + batch
  {
  }

  lemma {:induction false} RetainedCounts(steps: seq<Step>, n: nat, batches: seq<seq<Shortlisted>>, k: int)
    requires n <= |steps|
    ensures |RetainedLog(steps[..n])| <= |RetainedLog(steps)|
    ensures |RetainedAfterEach(batches, k)| == |batches|
    decreases |steps| + |batches|
  {
    hide TopK, Flatten;
    if n < |steps| {
      assert steps[..|steps| - 1][..n] == steps[..n];
      RetainedCounts(steps[..|steps| - 1], n, batches, k);
    } else {
      assert steps[..n] == steps;
      if batches != [] { RetainedCounts(steps, n, batches[..|batches| - 1], k); }
    }
  }

  /** A later committed record tells at least as many batches, and what it stores is their fold. */
  lemma {:induction false} LaterTellsMore(
      history: seq<Run>, batches: seq<seq<Shortlisted>>, requests: seq<Requested>, i: nat, j: nat)
    requires HistoryOk(history) && HistoryTells(history, batches, requests) && i <= j < |history|
    ensures var l, m := ListedRounds(Stage(history[i])), ListedRounds(Stage(history[j]));
      && 0 <= l <= m <= |batches| && history[i].config == history[j].config
      && Kept(history[i], batches[..l]) && Kept(history[j], batches[..m]) && RecordOk(history[j])
  {
    hide RecordOk, MayFollow, Stage, Flatten, Streamed, RetainedLog, RetainedAfterEach, SeenAt;
    HistoryGrows(history, i, j);
    assert Tells(history[i], batches, requests) && Tells(history[j], batches, requests);
    var l, m := ListedRounds(Stage(history[i])), ListedRounds(Stage(history[j]));
    var earlier, later := history[i].steps, history[j].steps;
    assert later[..|earlier|] == earlier;
    RetainedCounts(later, |earlier|, batches[..l], history[i].config.finalTopK);
    RetainedCounts(later, |earlier|, batches[..m], history[j].config.finalTopK);
  }

  /** A candidate analysed by some committed state but missing from the shortlist stored there is
      missing from the shortlist stored in every later state. */
  lemma {:induction false} RunDropsForGood(
      history: seq<Run>, batches: seq<seq<Shortlisted>>, requests: seq<Requested>, i: nat, j: nat, id: string)
    requires HistoryOk(history) && HistoryTells(history, batches, requests) && i <= j < |history|
    requires var l := ListedRounds(Stage(history[i])); 0 <= l <= |batches| && id in Ids(Flatten(batches[..l]))
    requires id !in Ids(history[i].finalShortlist)
    ensures id !in Ids(history[j].finalShortlist)
  {
    hide Flatten, Streamed, Stage, RecordOk, HistoryOk, HistoryTells, RetainedLog, RetainedAfterEach;
    LaterTellsMore(history, batches, requests, i, j);
    var l, m := ListedRounds(Stage(history[i])), ListedRounds(Stage(history[j]));
    NoResumeAnalysedTwice(history[j], batches[..m]);
    assert batches[..m][..l] == batches[..l];
    DroppedNeverReturns(batches[..m], history[j].config.finalTopK, l, id);
  }

  /** From any committed state to any later one the stored shortlist gets no shorter, and no rank of
      it loses score. */
  lemma {:induction false} StoredRanksNeverFall(
      history: seq<Run>, batches: seq<seq<Shortlisted>>, requests: seq<Requested>, i: nat, j: nat)
    requires HistoryOk(history) && HistoryTells(history, batches, requests) && i <= j < |history|
    ensures var earlier, later := history[i].finalShortlist, history[j].finalShortlist;
      && |earlier| <= |later|
      && forall x :: 0 <= x < |earlier| ==> later[x].score >= earlier[x].score
  {
    hide Flatten, Streamed, Stage, RecordOk, HistoryOk, HistoryTells, RetainedLog, RetainedAfterEach;
    LaterTellsMore(history, batches, requests, i, j);
    var l, m := ListedRounds(Stage(history[i])), ListedRounds(Stage(history[j]));
    RanksNeverFall(batches, history[j].config.finalTopK, l, m);
  }

  /** Against a source with fixed lists, when each fetch size divides every earlier one, a completed
      run has analysed every entry below the offset it reached in each list. */
  lemma {:induction false} BelowOffsetIsAnalysed(
      r: Run, batches: seq<seq<Shortlisted>>, requests: seq<Requested>, w: Scenario,
      offsets: map<Signature, nat>, lists: Signature -> seq<Candidate>, s: Signature, p: nat)
    requires CompletedRun(r, batches, requests, w) && SeenAt(Stage(r), r.seenResumeIds, requests)
    requires Positive(r.config.roundFetchSchedule) && DividesEarlier(r.config.roundFetchSchedule)
    requires PagesOk(requests, offsets, r.config.roundFetchSchedule) && AnsweredFrom(lists, requests)
    requires p < OffsetIn(offsets, s) && p < |lists(s)|
    ensures lists(s)[p].externalId in Ids(Flatten(batches))
  {
    hide Flatten, PagesOk, AnsweredFrom, SeenAfter, TopK, PhaseOf, Shapes, LastRound;
    assert DedupedRounds(Finalized(r.currentRound)) == DedupedRounds(Stage(r)) == |requests|;
    assert requests[..|requests|] == requests;
    BelowOffsetIsSeen(lists, requests, offsets, r.config.roundFetchSchedule, s, p);
  }

  lemma {:induction false} AskedAreNormal(w: Scenario, requests: seq<Requested>)
    requires AskedFor(w, requests)
    ensures NormalQueries(w.lower, requests)
  {
    hide StrategyOf, StrategySignature, NormalForm, PageOf;
    forall i | 0 <= i < |requests|
      ensures NormalForm(requests[i].query) && requests[i].signature == StrategySignature(w.lower, requests[i].query)
    {
      assert RequestOf(w, i + 1, requests[i]);
      StrategiesAreNormal(w, i + 1);
    }
  }

  /** Against the in-memory source: of the corpus entries a searched query asks for, a completed run has
      analysed each one below the offset it reached for that query's signature. */
  lemma {:induction false} MatchesBelowOffsetAnalysed(
      r: Run, batches: seq<seq<Shortlisted>>, requests: seq<Requested>, w: Scenario,
      offsets: map<Signature, nat>, corpus: seq<CorpusEntry>, i: nat, kept: seq<nat>, p: nat)
    requires CompletedRun(r, batches, requests, w) && SeenAt(Stage(r), r.seenResumeIds, requests)
    requires Positive(r.config.roundFetchSchedule) && DividesEarlier(r.config.roundFetchSchedule)
    requires PagesOk(requests, offsets, r.config.roundFetchSchedule) && AskedFor(w, requests)
    requires AnsweredByCorpus(w.lower, corpus, requests) && i < |requests|
    requires Keeps(w.lower, corpus, requests[i].query, kept)
    requires p < OffsetIn(offsets, requests[i].signature) && p < |kept|
    ensures kept[p] < |corpus| && corpus[kept[p]].candidate.externalId in Ids(Flatten(batches))
  {
    hide CompletedRun, SeenAt, PagesOk, AskedFor, AnsweredByCorpus, AnsweredFrom, Flatten, Matching, ListFor, Keeps;
    KeepsUnique(w.lower, corpus, requests[i].query, kept);
    hide NormalForm, StrategySignature, DividesEarlier;
    AskedAreNormal(w, requests);
    CorpusHasLists(w.lower, corpus, requests);
    ListForQuery(w.lower, corpus, requests[i].query);
    var lists := s => ListFor(w.lower, corpus, s);
    assert lists(requests[i].signature) == Matching(w.lower, corpus, requests[i].query);
    BelowOffsetIsAnalysed(r, batches, requests, w, offsets, lists, requests[i].signature, p);
  }

  /** What the analysis steps of a record's own log say is what its shortlist ranks: every stored entry
      is logged, and every logged analysis is represented by an entry at least as good or ranks behind
      a full list. */
  lemma {:induction false} ShortlistRanksTheLog(r: Run, batches: seq<seq<Shortlisted>>)
    requires Kept(r, batches)
    ensures forall y :: y in r.finalShortlist ==> Logged(r, Telling(y))
    ensures forall t :: Logged(r, t) ==>
        exists x :: Telling(x) == t && Answers(r.finalShortlist, x, Limit(r.config.finalTopK))
  {
    hide Streamed, TopK, Stage, RetainedLog, RetainedAfterEach, AnalysisLog, Telling, Answers, Flatten;
    StoredShortlistMeaning(r, batches);
    forall y | y in r.finalShortlist ensures Logged(r, Telling(y)) {
      var i, j := FlattenPosition(batches, y);
      assert AnalysisLog(r.steps)[i][j] == Telling(y);
    }
    forall t | Logged(r, t)
      ensures exists x :: Telling(x) == t && Answers(r.finalShortlist, x, Limit(r.config.finalTopK))
    {
      var log := AnalysisLog(r.steps);
      var i: nat, j: nat :| i < |log| && j < |log[i]| && log[i][j] == t;
      FlattenHas(batches, i, j);
      assert Telling(batches[i][j]) == t;
    }
  }

  /** Some analysis step of the log tells `t`. */
  ghost predicate Logged(r: Run, t: Told) {
    exists i: nat, j: nat ::
      i < |AnalysisLog(r.steps)| && j < |AnalysisLog(r.steps)[i]| && AnalysisLog(r.steps)[i][j] == t
  }

  lemma {:induction false} FlattenPosition<T>(batches: seq<seq<T>>, x: T) returns (i: nat, j: nat)
    requires x in Flatten(batches)
    ensures i < |batches| && j < |batches[i]| && batches[i][j] == x
  {
    var n := |batches| - 1;
    if x in batches[n] {
      i := n;
      j :| 0 <= j < |batches[n]| && batches[n][j] == x;
    } else {
      i, j := FlattenPosition(batches[..n], x);
    }
  }

  lemma {:induction false} FlattenHas<T>(batches: seq<seq<T>>, i: nat, j: nat)
    requires i < |batches| && j < |batches[i]|
    ensures batches[i][j] in Flatten(batches)
  {
    var n := |batches| - 1;
    if i < n { FlattenHas(batches[..n], i, j); }
  }

  /** The stored shortlist ranks everything analysed in the rounds the log lists, and nothing else:
      distinct ids in key order, full or without any analysed candidate left out. */
  lemma {:induction false} StoredShortlistMeaning(r: Run, batches: seq<seq<Shortlisted>>)
    requires Kept(r, batches)
    ensures var k, all := r.config.finalTopK, Flatten(batches);
      && r.finalShortlist == TopK(all, k)
      && Distinct(Ids(r.finalShortlist))
      && (forall y :: y in r.finalShortlist ==> y in all)
      && forall x :: x in all ==> Answers(r.finalShortlist, x, Limit(k))
  {
    hide Flatten, Streamed, TopK, Stage, RetainedLog, RetainedAfterEach, AnalysisLog, TellBatches;
    StreamedIsBatch(batches, r.config.finalTopK);
    TopKMeaning(Flatten(batches), r.config.finalTopK);
  }

  /** Every stored entry, and every analysis the log tells, is what some round made of the matcher's own
      answer for that candidate: an answer of 0.99 or more scores 0.99, any other one its own score. */
  lemma {:induction false} ScoresAreAnswers(r: Run, w: Scenario, batches: seq<seq<Shortlisted>>)
    requires Kept(r, batches) && batches == Batches(w, |batches|)
    ensures forall y :: y in r.finalShortlist ==> exists n: nat, i: nat :: AnsweredBy(w, n, i, y)
    ensures forall t :: Logged(r, t) ==> exists n: nat, i: nat, x :: AnsweredBy(w, n, i, x) && Telling(x) == t
  {
    hide Streamed, TopK, Stage, RetainedLog, RetainedAfterEach, AnalysisLog, Telling, Answers, Flatten, AnsweredBy;
    hide BatchOf;
    StoredShortlistMeaning(r, batches);
    forall y | y in r.finalShortlist ensures exists n: nat, i: nat :: AnsweredBy(w, n, i, y) {
      var i, j := FlattenPosition(batches, y);
      BatchAnswers(w, i + 1, j);
      assert AnsweredBy(w, i + 1, j, y);
    }
    forall t | Logged(r, t) ensures exists n: nat, i: nat, x :: AnsweredBy(w, n, i, x) && Telling(x) == t {
      var log := AnalysisLog(r.steps);
      var i: nat, j: nat :| i < |log| && j < |log[i]| && log[i][j] == t;
      BatchAnswers(w, i + 1, j);
      assert AnsweredBy(w, i + 1, j, batches[i][j]) && Telling(batches[i][j]) == t;
    }
  }

  // ---------------------------------------------------------------------------------------
  // Going on
  // ---------------------------------------------------------------------------------------

  /** A completed run searched once more after every round that left a round to go, changed the shortlist
      ids and whose reflector wished to continue, whatever query it wished for. */
  lemma {:induction false} ProgressGoesOn(
      r: Run, batches: seq<seq<Shortlisted>>, requests: seq<Requested>, w: Scenario, n: nat)
    requires CompletedRun(r, batches, requests, w) && batches == Batches(w, |batches|)
    requires 1 <= n <= |requests| && n < w.config.maxRounds
    requires w.outside.reflections(n).Success? && w.outside.reflections(n).value.continueSearch
    requires IdsAfter(batches[..n], w.config.finalTopK) != IdsAfter(batches[..n - 1], w.config.finalTopK)
    ensures |requests| > n
  {
    hide LastRound, IdsAfter, BatchOf, TopK, Flatten, Stage, StrategyOf, StrategySignature;
    assert batches[..n] == Batches(w, n) && batches[..n - 1] == Batches(w, n - 1);
    LastRoundExactly(w, n);
  }

  // ---------------------------------------------------------------------------------------
  // The ledger of a run
  // ---------------------------------------------------------------------------------------

  /** The duplicates a ledger shows are the ids of the page that were not admitted, with multiplicity. */
  lemma {:induction false} LedgerDuplicates(w: Scenario, e: Ledger.RoundEntry)
    requires TellsRound(w, e) && e.dedupe.Some?
    ensures var r: nat := e.roundNo;
      && multiset(e.dedupe.value.duplicateResumeIds) + multiset(Strings(ExternalIds(NewIn(w, r)))) ==
         multiset(Strings(ExternalIds(PageOf(w, r).candidates)))
      && e.dedupe.value.admittedCount + e.dedupe.value.duplicateCount == |PageOf(w, r).candidates|
  {
    hide TellsSearch, TellsAnalysis, ShowsShortlist, TellsReflection, StopReason, EndsAfter, RetainedAfter, BatchOf;
    hide Admitted, Duplicates, PageOf;
    var r: nat := e.roundNo;
    DedupeAccountsForAll(SeenBy(w, r - 1), PageOf(w, r).candidates);
    var all, kept, others := ExternalIds(PageOf(w, r).candidates), ExternalIds(NewIn(w, r)), DuplicatesIn(w, r);
    StringsMultiset(kept + others, all);
    assert Strings(kept + others) == Strings(kept) + Strings(others);
    assert |multiset(kept + others)| == |kept| + |others|;
  }

  lemma {:induction false} StringsMultiset(a: seq<string>, b: seq<string>)
    requires multiset(a) == multiset(b)
    ensures multiset(Strings(a)) == multiset(Strings(b)) && |a| == |b|
    decreases |a|
  {
    assert |multiset(a)| == |a| && |multiset(b)| == |b|;
    if a != [] {
      assert a[0] in multiset(b);
      var i :| 0 <= i < |b| && b[i] == a[0];
      assert a == [] + [a[0]] + a[1..] && b == b[..i] + [b[i]] + b[i + 1..];
      TakenOut([], a[0], a[1..]);
      TakenOut(b[..i], a[0], b[i + 1..]);
      assert [] + a[1..] == a[1..];
      StringsMultiset(a[1..], b[..i] + b[i + 1..]);
    }
  }

  lemma {:induction false} TakenOut(x: seq<string>, e: string, y: seq<string>)
    ensures multiset(x + y) == multiset(x + [e] + y) - multiset{e}
    ensures multiset(Strings(x + [e] + y)) == multiset(Strings(x + y)) + multiset{Str(e)}
  {
    StringsAppend(x, [e]);
    StringsAppend(x + [e], y);
    StringsAppend(x, y);
    assert Strings([e]) == [Str(e)];
    hide Strings;
  }

  lemma {:induction false} StringsAppend(a: seq<string>, b: seq<string>)
    ensures Strings(a + b) == Strings(a) + Strings(b)
  {
  }

  // ---------------------------------------------------------------------------------------
  // The outcome
  // ---------------------------------------------------------------------------------------

  /** A run completes exactly when the outside lets it load, takes the `running` patch, and fails none
      of the calls of its body. */
  lemma {:induction false} CompletesIff(w: Scenario)
    ensures Expected(w) == Returned(Completed) <==>
      && w.outside.load.None? && w.outside.patches(0).None?
      && NoneFailBefore(w, 1, BodyCalls(w), |BodyCalls(w)|)
  {
    hide BodyCalls, FailureAt, Play;
    var n := FirstFailure(w, 1, BodyCalls(w));
    assert n < |BodyCalls(w)| ==> FailureAt(w, 1, BodyCalls(w), n).Some?;
  }

  /** When it does not complete, what it records is the failure of the first call that failed. */
  lemma {:induction false} CauseIsFirstFailure(w: Scenario) returns (n: nat)
    requires BodyPlayed(w).error.Some?
    ensures n < |BodyCalls(w)| && NoneFailBefore(w, 1, BodyCalls(w), n)
    ensures FailureAt(w, 1, BodyCalls(w), n) == BodyPlayed(w).error
    ensures w.outside.load.None? && w.outside.patches(0).None? ==>
      var recorded := w.outside.patches(BodyPlayed(w).sent);
      Expected(w) == if recorded.None? then Returned(Failed) else Raised(recorded.value)
  {
    hide BodyCalls, FailureAt, Play;
    n := FirstFailure(w, 1, BodyCalls(w));
  }

  /** With every patch taken and every round up to the last answered well, the run completes. */
  lemma {:induction false} GoodAnswersComplete(w: Scenario)
    requires w.outside.load.None? && EveryPatchTaken(w)
    requires forall n :: 1 <= n <= LastRound(w, 1) ==> GoodRound(w, n)
    requires !RuleStops(w, LastRound(w, 1)) ==> StrategyOf(w, LastRound(w, 1) + 1).Success?
    ensures Expected(w) == Returned(Completed)
  {
    hide GoodRound, RuleStops, StrategyOf, BodyPlayed, LastRound;
    NothingFails(w);
  }

  /** With every patch taken, what fails first in a run whose rounds before `r` were answered well is what
      it records: the extraction before any round, and in round `r` the page's failure, its error code
      with its message or a default one, then the storage of candidates, the matcher, a missing
      reference, the storage of analyses, and the reflector if no rule stopped the run. */
  lemma {:induction false} FailingAnswerIsCause(w: Scenario, r: nat)
    requires w.outside.load.None? && EveryPatchTaken(w) && 1 <= r <= LastRound(w, 1)
    requires forall n :: 1 <= n < r ==> GoodRound(w, n)
    ensures var o, e := w.outside, BodyPlayed(w).error;
      && (o.strategy.Failure? ==> e == Some(o.strategy.error))
      && (StrategyOf(w, r).Success? ==>
            && (o.pages(r).Failure? ==> e == Some(o.pages(r).error))
            && (o.pages(r).Success? && o.pages(r).value.errorCode.GetOr("") != "" ==>
                  var message := o.pages(r).value.errorMessage.GetOr("");
                  e == Some(Error(o.pages(r).value.errorCode.value,
                                  if message != "" then message else "CTS search failed.")))
            && (AnsweredPage(w, r) && NewIn(w, r) != [] ==>
                  && (o.references(r).Failure? ==> e == Some(o.references(r).error))
                  && (o.references(r).Success? && o.matches(r).Failure? ==> e == Some(o.matches(r).error))
                  && (o.references(r).Success? && o.matches(r).Success? ==>
                        && (MissingReference(NewIn(w, r), TableAfter(w, r)).Some? ==>
                              e == MissingReference(NewIn(w, r), TableAfter(w, r)))
                        && (MissingReference(NewIn(w, r), TableAfter(w, r)).None? && o.analysesStored(r).Some? ==>
                              e == o.analysesStored(r))))
            && (GoodRound(w, r) && !RuleStops(w, r) && o.reflections(r).Failure? ==>
                  e == Some(o.reflections(r).error)))
    ensures BodyPlayed(w).error.Some? ==> Expected(w) == Returned(Failed)
  {
    hide GoodRound, RuleStops, LastRound, CallsFrom, NewIn, TableAfter, MissingReference, AnsweredPage, Play;
    var start := Played(None, 1);
    PlayAppend(w, start, [Extract, Save], CallsFrom(w, 1));
    PlayTwo(w, start, Extract, Save);
    var extracted := Then(w, Then(w, start, Extract), Save);
    if w.outside.strategy.Failure? {
      PlayFailed(w, extracted, CallsFrom(w, 1));
    }
    if StrategyOf(w, r).Success? && (r > 1 || w.outside.strategy.Success?) {
      if r > 1 { GoodStrategy(w, 1); }
      hide StrategyOf;
      var reached := ReachRound(w, extracted, 1, r);
      FailingRound(w, reached, r);
    }
  }

  /** An error page fails the run, with its own code. */
  lemma {:induction false} ErrorPageFails(w: Scenario, r: nat, page: SearchPage, code: string)
    requires w.outside.load.None? && EveryPatchTaken(w) && 1 <= r <= LastRound(w, 1)
    requires forall n :: 1 <= n < r ==> GoodRound(w, n)
    requires StrategyOf(w, r).Success? && w.outside.pages(r) == Success(page)
    requires page.errorCode == Some(code) && code != ""
    ensures Expected(w) == Returned(Failed)
    ensures BodyPlayed(w).error == Some(Error(code,
      if page.errorMessage.None? || page.errorMessage.value == "" then "CTS search failed."
      else page.errorMessage.value))
  {
    hide GoodRound, RuleStops, LastRound, BodyPlayed, StrategyOf, Expected;
    FailingAnswerIsCause(w, r);
  }
}
