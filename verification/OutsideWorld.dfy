/** What a run meets from outside, as data: every answer of the agents, the resume source, the
    persistence activities and the trace exporter, chosen freely before the run.  From these answers
    alone follows what each round searches, admits and analyses, where the run stops, and which
    outside calls it makes, in order.
 */
module OutsideWorld {
  import opened Wrappers
  import opened Json
  import opened RunConfig
  import opened Query
  import opened Text
  import opened ResumeSource
  import opened Shortlist
  import opened Rounds
  import opened Progress
  import opened CandidatePersistence

  // ---------------------------------------------------------------------------------------
  // Answers
  // ---------------------------------------------------------------------------------------

  datatype StrategyOutput = StrategyOutput(
    mustRequirements: seq<string>, coreRequirements: seq<string>, bonusRequirements: seq<string>,
    excludeSignals: seq<string>, round1Query: SearchQuery, summary: string)

  datatype MatchOutput = MatchOutput(score: real, summary: string)

  datatype ReflectionOutput = ReflectionOutput(
    continueSearch: bool, reason: string, nextRoundGoal: string, nextRoundQuery: SearchQuery)

  predicate QueryBounds(q: SearchQuery) {
    q.keyword != "" && q.mustTerms != []
  }

  predicate StrategyBounds(o: StrategyOutput) {
    o.mustRequirements != [] && o.summary != "" && QueryBounds(o.round1Query)
  }

  predicate MatchBounds(o: MatchOutput) {
    0.0 <= o.score <= 1.0 && o.summary != ""
  }

  predicate ReflectionBounds(o: ReflectionOutput) {
    o.reason != "" && o.nextRoundGoal != "" && QueryBounds(o.nextRoundQuery)
  }

  const SOME_QUERY := SearchQuery("-", ["-"], [], [], map[])

  /** Answers within the field bounds of their types; any other answer is a failure of its agent. */
  type BoundedStrategy = o: StrategyOutput | StrategyBounds(o)
    witness StrategyOutput(["-"], [], [], [], SOME_QUERY, "-")

  type BoundedMatch = o: MatchOutput | MatchBounds(o) witness MatchOutput(0.0, "-")

  type BoundedReflection = o: ReflectionOutput | ReflectionBounds(o)
    witness ReflectionOutput(true, "-", "-", SOME_QUERY)

  /** The trace exporter stores a trace, or fails. */
  datatype Publication = Published(traceId: Option<string>, traceUrl: Option<string>) | NotPublished(failure: string)

  /** One answer for every outside call a run may make: patches by their number, everything else by
      the round, matches also by the position of the candidate. */
  datatype Outside = Outside(
    load: Option<Error>,
    patches: nat -> Option<Error>,
    strategy: Result<BoundedStrategy>,
    pages: nat -> Result<SearchPage>,
    references: nat -> Result<seq<Ref>>,
    matches: nat -> Result<nat -> BoundedMatch>,
    analysesStored: nat -> Option<Error>,
    reflections: nat -> Result<BoundedReflection>,
    publication: Publication)

  /** How queries, strategies and deltas look inside a step payload. */
  datatype Encoding = Encoding(
    query: SearchQuery -> Value, strategy: Strategy -> Value, delta: QueryDelta -> Value)

  /** The outside together with what the run itself is given. */
  datatype Scenario = Scenario(
    outside: Outside, jd: string, config: Config, minRounds: int, lower: string -> string, encoding: Encoding)

  // ---------------------------------------------------------------------------------------
  // Strategies
  // ---------------------------------------------------------------------------------------

  /** The code recorded for an exception that has none of its own. */
  const AGENT_RUN_FAILED := "AGENT_RUN_FAILED"

  /** `to_normalized_strategy`: the strategy must also have a job description. */
  function NormalizedStrategy(jd: string, q: SearchQuery): Result<Strategy> {
    var built := BuildSearchStrategy(jd, q);
    if built.Success? && jd == "" then Failure(Error(AGENT_RUN_FAILED, "jd must not be empty")) else built
  }

  /** The strategy a round searches: the extracted one, then what the reflector asked for. */
  function StrategyOf(w: Scenario, r: nat): Result<Strategy> {
    if r <= 1 then
      match w.outside.strategy
      case Failure(e) => Failure(e)
      case Success(output) => NormalizedStrategy(w.jd, output.round1Query)
    else
      match w.outside.reflections(r - 1)
      case Failure(e) => Failure(e)
      case Success(output) => NormalizedStrategy(w.jd, output.nextRoundQuery)
  }

  /** A round has a strategy exactly when its query was answered, there is a job description, and the
      keyword or some must- or should-term of the query is not blank; it is then built from that query. */
  lemma {:induction false} StrategySucceedsIff(w: Scenario, r: nat)
    ensures r <= 1 && w.outside.strategy.Success? ==>
      var q := w.outside.strategy.value.round1Query;
      && (StrategyOf(w, r).Success? <==>
            w.jd != "" && (Strip(q.keyword) != [] || !Blank(q.mustTerms) || !Blank(q.shouldTerms)))
      && (StrategyOf(w, r).Success? ==> StrategyOf(w, r) == BuildSearchStrategy(w.jd, q))
    ensures r > 1 && w.outside.reflections(r - 1).Success? ==>
      var q := w.outside.reflections(r - 1).value.nextRoundQuery;
      && (StrategyOf(w, r).Success? <==>
            w.jd != "" && (Strip(q.keyword) != [] || !Blank(q.mustTerms) || !Blank(q.shouldTerms)))
      && (StrategyOf(w, r).Success? ==> StrategyOf(w, r) == BuildSearchStrategy(w.jd, q))
    ensures r <= 1 && w.outside.strategy.Failure? ==> StrategyOf(w, r) == Failure(w.outside.strategy.error)
    ensures r > 1 && w.outside.reflections(r - 1).Failure? ==>
      StrategyOf(w, r) == Failure(w.outside.reflections(r - 1).error)
  {
    hide BuildSearchStrategy, Strip, Blank;
    if r <= 1 {
      if w.outside.strategy.Success? { BuiltInNormalForm(w.jd, w.outside.strategy.value.round1Query); }
    } else if w.outside.reflections(r - 1).Success? {
      BuiltInNormalForm(w.jd, w.outside.reflections(r - 1).value.nextRoundQuery);
    }
  }

  lemma {:induction false} StrategiesAreNormal(w: Scenario, r: nat)
    ensures StrategyOf(w, r).Success? ==> NormalForm(StrategyOf(w, r).value.query)
  {
    hide BuildSearchStrategy, NormalForm;
    if r <= 1 {
      if w.outside.strategy.Success? { BuiltInNormalForm(w.jd, w.outside.strategy.value.round1Query); }
    } else if w.outside.reflections(r - 1).Success? {
      BuiltInNormalForm(w.jd, w.outside.reflections(r - 1).value.nextRoundQuery);
    }
  }

  // ---------------------------------------------------------------------------------------
  // What each round admits and analyses
  // ---------------------------------------------------------------------------------------

  const NO_PAGE := SearchPage(false, 0, 0, 0, [], None, None)

  function PageOf(w: Scenario, r: nat): SearchPage {
    match w.outside.pages(r)
    case Failure(_) => NO_PAGE
    case Success(page) => page
  }

  /** The ids seen after `n` rounds. */
  function SeenBy(w: Scenario, n: nat): seq<string>
    decreases n, 1
  {
    if n == 0 then [] else SeenBy(w, n - 1) + ExternalIds(NewIn(w, n))
  }

  /** The candidates a round admits. */
  function NewIn(w: Scenario, r: nat): seq<Candidate>
    decreases r, 0
  {
    if r == 0 then [] else Admitted(SeenBy(w, r - 1), PageOf(w, r).candidates)
  }

  /** The reference table with these references entered, later ones over earlier ones. */
  function WithRefs(table: map<string, Ref>, refs: seq<Ref>): map<string, Ref> {
    if refs == [] then table
    else
      var last := refs[|refs| - 1];
      WithRefs(table, refs[..|refs| - 1])[last.externalId := last]
  }

  /** Under an id the table holds the last reference that names it, and otherwise what it held before. */
  lemma {:induction false} WithRefsMeaning(table: map<string, Ref>, refs: seq<Ref>, i: nat, id: string)
    requires i < |refs| && forall j :: i < j < |refs| ==> refs[j].externalId != refs[i].externalId
    ensures refs[i].externalId in WithRefs(table, refs) && WithRefs(table, refs)[refs[i].externalId] == refs[i]
    ensures (forall j :: 0 <= j < |refs| ==> refs[j].externalId != id) ==>
      (id in WithRefs(table, refs) <==> id in table) && (id in table ==> WithRefs(table, refs)[id] == table[id])
  {
    var n := |refs| - 1;
    if i < n {
      WithRefsMeaning(table, refs[..n], i, id);
      assert refs[n].externalId != refs[i].externalId;
    } else {
      WithRefsKeeps(table, refs, id);
    }
  }

  lemma {:induction false} WithRefsKeeps(table: map<string, Ref>, refs: seq<Ref>, id: string)
    ensures (forall j :: 0 <= j < |refs| ==> refs[j].externalId != id) ==>
      (id in WithRefs(table, refs) <==> id in table) && (id in table ==> WithRefs(table, refs)[id] == table[id])
  {
    if refs != [] { WithRefsKeeps(table, refs[..|refs| - 1], id); }
  }

  lemma {:induction false} SeenByDistinct(w: Scenario, n: nat)
    ensures Distinct(SeenBy(w, n))
  {
    if n > 0 {
      hide Admitted;
      SeenByDistinct(w, n - 1);
      SeenStaysDistinct(SeenBy(w, n - 1), PageOf(w, n).candidates);
    }
  }

  lemma {:induction false} NewInDistinct(w: Scenario, r: nat)
    requires r > 0
    ensures Distinct(ExternalIds(NewIn(w, r)))
  {
    hide NewIn;
    SeenByDistinct(w, r);
    var seen, ids := SeenBy(w, r - 1), ExternalIds(NewIn(w, r));
    assert SeenBy(w, r) == seen + ids;
    forall i, j | 0 <= i < j < |ids| ensures ids[i] != ids[j] {
      assert (seen + ids)[|seen| + i] != (seen + ids)[|seen| + j];
    }
  }

  /** The reference table after `n` rounds; a round without new candidates asks for none. */
  function TableAfter(w: Scenario, n: nat): map<string, Ref> {
    if n == 0 then map[]
    else if NewIn(w, n) == [] || w.outside.references(n).Failure? then TableAfter(w, n - 1)
    else WithRefs(TableAfter(w, n - 1), w.outside.references(n).value)
  }

  /** Scores are capped to [0, 0.99]. */
  function Capped(score: real): (r: real)
    ensures 0.0 <= r <= 0.99
    ensures 0.0 <= score <= 0.99 ==> r == score
    ensures score >= 0.99 ==> r == 0.99
    ensures score <= 0.0 ==> r == 0.0
  {
    if score > 0.99 then 0.99 else if score < 0.0 then 0.0 else score
  }

  function AnalysisFor(c: Candidate, table: map<string, Ref>, m: MatchOutput, r: nat): Shortlisted {
    Shortlisted(if c.externalId in table then table[c.externalId].candidateId else "", c, Capped(m.score), m.summary, r)
  }

  function Combined(candidates: seq<Candidate>, table: map<string, Ref>, matches: nat -> BoundedMatch, r: nat)
    : (batch: seq<Shortlisted>)
    ensures |batch| == |candidates|
    ensures forall i :: 0 <= i < |batch| ==> batch[i] == AnalysisFor(candidates[i], table, matches(i), r)
  {
    seq(|candidates|, i requires 0 <= i < |candidates| => AnalysisFor(candidates[i], table, matches(i), r))
  }

  /** What a round analyses: each admitted candidate with its own capped match answer. */
  function BatchOf(w: Scenario, r: nat): seq<Shortlisted> {
    if NewIn(w, r) == [] then []
    else
      match w.outside.matches(r)
      case Failure(_) => []
      case Success(matches) => Combined(NewIn(w, r), TableAfter(w, r), matches, r)
  }

  function Batches(w: Scenario, n: nat): (batches: seq<seq<Shortlisted>>)
    ensures |batches| == n && forall i :: 0 <= i < n ==> batches[i] == BatchOf(w, i + 1)
  {
    seq(n, i requires 0 <= i < n => BatchOf(w, i + 1))
  }

  /** The requests are those for the rounds' own strategies, answered by the rounds' own pages. */
  ghost predicate AskedFor(w: Scenario, requests: seq<Requested>) {
    forall i :: 0 <= i < |requests| ==> RequestOf(w, i + 1, requests[i])
  }

  ghost predicate RequestOf(w: Scenario, r: nat, q: Requested) {
    && StrategyOf(w, r).Success? && q.query == StrategyOf(w, r).value.query
    && q.signature == StrategySignature(w.lower, q.query)
    && w.outside.pages(r).Success? && q.candidates == PageOf(w, r).candidates
  }

  lemma {:induction false} SeenByRequests(w: Scenario, requests: seq<Requested>)
    requires AskedFor(w, requests)
    ensures SeenAfter(requests) == SeenBy(w, |requests|)
  {
    hide Admitted, StrategyOf, StrategySignature;
    if requests != [] {
      var n := |requests| - 1;
      assert RequestOf(w, n + 1, requests[n]);
      assert AskedFor(w, requests[..n]) by {
        hide RequestOf;
        forall i | 0 <= i < n ensures RequestOf(w, i + 1, requests[..n][i]) {
          assert RequestOf(w, i + 1, requests[i]);
        }
      }
      SeenByRequests(w, requests[..n]);
    }
  }

  lemma {:induction false} AskedAppend(w: Scenario, requests: seq<Requested>, q: Requested)
    requires AskedFor(w, requests) && RequestOf(w, |requests| + 1, q)
    ensures AskedFor(w, requests + [q])
  {
    hide RequestOf;
  }

  lemma {:induction false} BatchesAppend(w: Scenario, n: nat)
    ensures Batches(w, n) + [BatchOf(w, n + 1)] == Batches(w, n + 1)
  {
    hide BatchOf;
  }

  /** Before a round's deduplication the seen ids are those of the rounds before it. */
  lemma {:induction false} SeenBefore(w: Scenario, r: nat, seen: seq<string>, requests: seq<Requested>)
    requires r > 0 && |requests| == r && AskedFor(w, requests) && SeenAt(LogGrammar.Searched(r), seen, requests)
    ensures seen == SeenBy(w, r - 1) && NewIn(w, r) == Admitted(seen, PageOf(w, r).candidates)
  {
    hide RequestOf, Admitted;
    var before := requests[..r - 1];
    forall i | 0 <= i < |before| ensures RequestOf(w, i + 1, before[i]) {
      assert RequestOf(w, i + 1, requests[i]);
    }
    SeenByRequests(w, before);
  }

  /** What every round analyses carries the round's own number. */
  lemma {:induction false} BatchRound(w: Scenario, r: nat)
    ensures forall x :: x in BatchOf(w, r) ==> x.sourceRound == r
    ensures w.outside.matches(r).Success? ==> Ids(BatchOf(w, r)) == ExternalIds(NewIn(w, r))
    ensures forall x :: x in BatchOf(w, r) ==> 0.0 <= x.score <= 0.99 && x.reason != "" && x.candidate in NewIn(w, r)
  {
    hide NewIn, TableAfter, Capped;
  }

  /** `x` is what round `r` makes of its `i`th new candidate: the matcher's answer for it, with a score of
      at most 0.99, under the id of the reference answered for it. */
  ghost predicate AnsweredBy(w: Scenario, r: nat, i: nat, x: Shortlisted) {
    && r > 0 && i < |NewIn(w, r)| && w.outside.matches(r).Success?
    && var answer: MatchOutput := w.outside.matches(r).value(i);
    && x.candidate == NewIn(w, r)[i] && x.reason == answer.summary && x.sourceRound == r
    && x.score == (if answer.score >= 0.99 then 0.99 else answer.score)
    && (w.outside.references(r).Success? && OnePerCandidate(w.outside.references(r).value, NewIn(w, r)) ==>
          x.candidateId == w.outside.references(r).value[i].candidateId)
  }

  lemma {:induction false} BatchAnswers(w: Scenario, r: nat, i: nat)
    requires r > 0 && i < |BatchOf(w, r)|
    ensures AnsweredBy(w, r, i, BatchOf(w, r)[i])
  {
    hide NewIn, Capped, WithRefs;
    var x, refs := BatchOf(w, r)[i], w.outside.references(r);
    if refs.Success? && OnePerCandidate(refs.value, NewIn(w, r)) {
      NewInDistinct(w, r);
      var ids := ExternalIds(NewIn(w, r));
      forall j | i < j < |refs.value| ensures refs.value[j].externalId != refs.value[i].externalId {
        assert ids[i] != ids[j];
      }
      WithRefsMeaning(TableAfter(w, r - 1), refs.value, i, "");
    }
  }

  /** A better answer of the matcher never gets the lower score. */
  lemma {:induction false} BetterAnswerKept(w: Scenario, r: nat, i: nat, x: Shortlisted, q: nat, j: nat, y: Shortlisted)
    requires AnsweredBy(w, r, i, x) && AnsweredBy(w, q, j, y)
    requires w.outside.matches(r).value(i).score <= w.outside.matches(q).value(j).score
    ensures x.score <= y.score
    ensures w.outside.matches(r).value(i).score < 0.99 ==>
      (x.score < y.score <==> w.outside.matches(r).value(i).score < w.outside.matches(q).value(j).score)
  {
  }

  // ---------------------------------------------------------------------------------------
  // Where the run stops
  // ---------------------------------------------------------------------------------------

  function StreakOf(w: Scenario, n: nat): nat {
    NoProgressStreak(Batches(w, n), w.config.finalTopK)
  }

  predicate RuleStops(w: Scenario, r: nat) {
    r >= w.config.maxRounds || (r >= w.minRounds && StreakOf(w, r) >= 2)
  }

  predicate SameQueryAgain(w: Scenario, r: nat) {
    && StrategyOf(w, r).Success? && StrategyOf(w, r + 1).Success?
    && StrategySignature(w.lower, StrategyOf(w, r + 1).value.query) ==
       StrategySignature(w.lower, StrategyOf(w, r).value.query)
  }

  /** From the minimum on, the reflector's wish to stop is honoured and no query is repeated idly. */
  predicate ReflectionStops(w: Scenario, r: nat) {
    && r >= w.minRounds && w.outside.reflections(r).Success?
    && (!w.outside.reflections(r).value.continueSearch || (StreakOf(w, r) >= 1 && SameQueryAgain(w, r)))
  }

  /** The first round from `r` on after which the run stops. */
  function LastRound(w: Scenario, r: nat): nat
    decreases w.config.maxRounds - r
  {
    if RuleStops(w, r) || ReflectionStops(w, r) then r else LastRound(w, r + 1)
  }

  lemma {:induction false} LastRoundMeaning(w: Scenario, r: nat)
    ensures var last := LastRound(w, r);
      && r <= last && (r <= w.config.maxRounds ==> last <= w.config.maxRounds)
      && (RuleStops(w, last) || ReflectionStops(w, last))
      && (forall n :: r <= n < last ==> !RuleStops(w, n) && !ReflectionStops(w, n))
    decreases w.config.maxRounds - r
  {
    hide StreakOf, ReflectionStops;
    if !RuleStops(w, r) && !ReflectionStops(w, r) { LastRoundMeaning(w, r + 1); }
  }

  /** Round `n` left the shortlist ids as they were. */
  ghost predicate Unchanged(w: Scenario, n: nat) {
    n >= 1 && IdsAfter(Batches(w, n), w.config.finalTopK) == IdsAfter(Batches(w, n - 1), w.config.finalTopK)
  }

  lemma {:induction false} StreakStep(w: Scenario, n: nat)
    ensures StreakOf(w, n) == if Unchanged(w, n) then StreakOf(w, n - 1) + 1 else 0
  {
    hide IdsAfter, BatchOf;
    if n >= 1 { assert Batches(w, n)[..n - 1] == Batches(w, n - 1); }
  }

  /** What ends a run after round `n`: no round is left; or the minimum is reached and two rounds in a row
      left the shortlist ids as they were; or the reflector, asked, wants to stop; or the round left the
      ids as they were and the next query has the signature of the last one. */
  ghost predicate EndsAfter(w: Scenario, n: nat) {
    || n >= w.config.maxRounds
    || (n >= w.minRounds && Unchanged(w, n) && Unchanged(w, n - 1))
    || (n >= w.minRounds && w.outside.reflections(n).Success?
        && (!w.outside.reflections(n).value.continueSearch
            || (Unchanged(w, n) && StrategyOf(w, n).Success? && StrategyOf(w, n + 1).Success?
                && StrategySignature(w.lower, StrategyOf(w, n).value.query) ==
                   StrategySignature(w.lower, StrategyOf(w, n + 1).value.query))))
  }

  lemma {:induction false} EndsIffStops(w: Scenario, n: nat)
    ensures EndsAfter(w, n) <==> RuleStops(w, n) || ReflectionStops(w, n)
  {
    hide StreakOf, Unchanged, StrategyOf, StrategySignature;
    StreakStep(w, n);
    if n >= 1 {
      StreakStep(w, n - 1);
    } else {
      assert !Unchanged(w, 0) by { UnchangedAfterNone(w); }
    }
  }

  lemma {:induction false} UnchangedAfterNone(w: Scenario)
    ensures !Unchanged(w, 0)
  {
  }

  /** The run ends after the first round that ends it, and after no other. */
  lemma {:induction false} LastRoundExactly(w: Scenario, r: nat)
    ensures LastRound(w, 1) == r <==> r >= 1 && EndsAfter(w, r) && forall n :: 1 <= n < r ==> !EndsAfter(w, n)
  {
    hide EndsAfter, RuleStops, ReflectionStops, LastRound;
    LastRoundMeaning(w, 1);
    EndsIffStops(w, r);
    EndsIffStops(w, LastRound(w, 1));
    forall n: nat | n < r ensures EndsAfter(w, n) <==> RuleStops(w, n) || ReflectionStops(w, n) { EndsIffStops(w, n); }
  }

  // ---------------------------------------------------------------------------------------
  // The outside calls of a run, and which of them fails first
  // ---------------------------------------------------------------------------------------

  datatype Call =
    | Save                                             // one persistence patch
    | Extract                                          // the strategy, normalised
    | Search(round: nat) | CheckPage(round: nat)
    | StoreCandidates(round: nat) | Match(round: nat) | FindReferences(round: nat) | StoreAnalyses(round: nat)
    | Reflect(round: nat)                              // the next strategy, normalised

  function ErrorOf<T>(r: Result<T>): Option<Error> {
    match r
    case Failure(e) => Some(e)
    case Success(_) => None
  }

  function MissingMessage(c: Candidate): string {
    "Persisted candidate reference missing for " + c.externalId + "."
  }

  /** The first candidate without a reference is an error. */
  function MissingReference(candidates: seq<Candidate>, table: map<string, Ref>): (e: Option<Error>)
    ensures e.None? <==> forall c :: c in candidates ==> c.externalId in table
  {
    if candidates == [] then None
    else if candidates[0].externalId !in table then Some(Error(AGENT_RUN_FAILED, MissingMessage(candidates[0])))
    else MissingReference(candidates[1..], table)
  }

  lemma {:induction false} MissingStep(candidates: seq<Candidate>, table: map<string, Ref>, i: nat)
    requires i <= |candidates|
    ensures MissingReference(candidates[i..], table) ==
      if i == |candidates| then None
      else if candidates[i].externalId !in table then Some(Error(AGENT_RUN_FAILED, MissingMessage(candidates[i])))
      else MissingReference(candidates[i + 1..], table)
  {
    if i < |candidates| { assert candidates[i..][1..] == candidates[i + 1..]; }
  }

  function PageError(page: SearchPage): Option<Error> {
    var code, message := page.errorCode.GetOr(""), page.errorMessage.GetOr("");
    if code == "" then None else Some(Error(code, if message != "" then message else "CTS search failed."))
  }

  /** How a call fails, given the number of patches sent before it. */
  function FailureOf(w: Scenario, sent: nat, c: Call): Option<Error> {
    match c
    case Save => w.outside.patches(sent)
    case Extract => ErrorOf(StrategyOf(w, 1))
    case Search(r) => ErrorOf(w.outside.pages(r))
    case CheckPage(r) => PageError(PageOf(w, r))
    case StoreCandidates(r) => ErrorOf(w.outside.references(r))
    case Match(r) => ErrorOf(w.outside.matches(r))
    case FindReferences(r) => MissingReference(NewIn(w, r), TableAfter(w, r))
    case StoreAnalyses(r) => w.outside.analysesStored(r)
    case Reflect(r) => ErrorOf(StrategyOf(w, r + 1))
  }

  /** How far a run has come: the failure that ended it, and the number of patches sent. */
  datatype Played = Played(error: Option<Error>, sent: nat)

  /** One more call; after a failure there is none. */
  function Then(w: Scenario, p: Played, c: Call): Played {
    if p.error.Some? then p else Played(FailureOf(w, p.sent, c), if c.Save? then p.sent + 1 else p.sent)
  }

  function Play(w: Scenario, p: Played, calls: seq<Call>): Played
    decreases |calls|
  {
    if calls == [] then p else Play(w, Then(w, p, calls[0]), calls[1..])
  }

  lemma {:induction false} PlayAppend(w: Scenario, p: Played, a: seq<Call>, b: seq<Call>)
    ensures Play(w, p, a + b) == Play(w, Play(w, p, a), b)
    decreases |a|
  {
    hide FailureOf;
    if a == [] {
      assert a + b == b;
    } else {
      assert (a + b)[1..] == a[1..] + b;
      PlayAppend(w, Then(w, p, a[0]), a[1..], b);
    }
  }

  lemma {:induction false} PlayFailed(w: Scenario, p: Played, calls: seq<Call>)
    requires p.error.Some?
    ensures Play(w, p, calls) == p
    decreases |calls|
  {
    if calls != [] { PlayFailed(w, p, calls[1..]); }
  }

  lemma {:induction false} PlayOne(w: Scenario, p: Played, a: Call)
    ensures Play(w, p, [a]) == Then(w, p, a)
  {
    hide FailureOf;
    assert [a][1..] == [];
  }

  lemma {:induction false} PlayTwo(w: Scenario, p: Played, a: Call, b: Call)
    ensures Play(w, p, [a, b]) == Then(w, Then(w, p, a), b)
  {
    hide FailureOf;
    assert [a, b] == [a] + [b];
    PlayAppend(w, p, [a], [b]);
    PlayOne(w, p, a);
    PlayOne(w, Then(w, p, a), b);
  }

  lemma {:induction false} PlayFour(w: Scenario, p: Played, a: Call, b: Call, c: Call, d: Call)
    ensures Play(w, p, [a, b, c, d]) == Then(w, Then(w, Then(w, Then(w, p, a), b), c), d)
  {
    hide FailureOf, Then;
    assert [a, b, c, d] == [a, b] + [c, d];
    PlayAppend(w, p, [a, b], [c, d]);
    PlayTwo(w, p, a, b);
    PlayTwo(w, Then(w, Then(w, p, a), b), c, d);
  }

  function SearchCalls(r: nat): seq<Call> {
    [Save, Search(r), Save, CheckPage(r)]
  }

  /** A round without new candidates makes none of these. */
  function AnalysisCalls(w: Scenario, r: nat): seq<Call> {
    if NewIn(w, r) == [] then [] else [StoreCandidates(r), Match(r), FindReferences(r), StoreAnalyses(r)]
  }

  function FirstOf(a: Option<Error>, b: Option<Error>): Option<Error> {
    if a.Some? then a else b
  }

  /** The calls of a search, one after the other. */
  lemma {:induction false} PlaySearch(w: Scenario, sent: nat, r: nat)
    ensures var first, answer, second := w.outside.patches(sent), w.outside.pages(r), w.outside.patches(sent + 1);
      Play(w, Played(None, sent), SearchCalls(r)) ==
        if first.Some? then Played(first, sent + 1)
        else if answer.Failure? then Played(Some(answer.error), sent + 1)
        else if second.Some? then Played(second, sent + 2)
        else if answer.value.errorCode.GetOr("") == "" then Played(None, sent + 2)
        else Played(Some(Error(answer.value.errorCode.value,
                               if answer.value.errorMessage.GetOr("") == "" then "CTS search failed."
                               else answer.value.errorMessage.value)), sent + 2)
  {
    PlayFour(w, Played(None, sent), Save, Search(r), Save, CheckPage(r));
    hide Play;
  }

  /** Of the four calls the first failure counts. */
  lemma {:induction false} PlayAnalysis(w: Scenario, sent: nat, r: nat)
    requires r > 0 && NewIn(w, r) != []
    ensures Play(w, Played(None, sent), AnalysisCalls(w, r)) == Played(
      FirstOf(ErrorOf(w.outside.references(r)), FirstOf(ErrorOf(w.outside.matches(r)),
        FirstOf(MissingReference(NewIn(w, r), TableAfter(w, r)), w.outside.analysesStored(r)))), sent)
    ensures w.outside.references(r).Success? ==>
      TableAfter(w, r) == WithRefs(TableAfter(w, r - 1), w.outside.references(r).value)
    ensures w.outside.matches(r).Success? ==>
      BatchOf(w, r) == Combined(NewIn(w, r), TableAfter(w, r), w.outside.matches(r).value, r)
  {
    PlayFour(w, Played(None, sent), StoreCandidates(r), Match(r), FindReferences(r), StoreAnalyses(r));
    hide NewIn, MissingReference, WithRefs, Play;
  }

  /** A round up to its shortlist. */
  function RoundCalls(w: Scenario, r: nat): seq<Call> {
    SearchCalls(r) + [Save] + AnalysisCalls(w, r) + [Save]
  }

  /** What follows a shortlist: the stop and finalize patches, or a reflection first, or more rounds. */
  function DecideCalls(w: Scenario, r: nat): seq<Call>
    decreases w.config.maxRounds - r, 0
  {
    if RuleStops(w, r) then [Save, Save]
    else if ReflectionStops(w, r) then [Reflect(r), Save] + [Save, Save]
    else [Reflect(r), Save] + CallsFrom(w, r + 1)
  }

  /** The rounds from `r` on, up to and including the finalize patch. */
  function CallsFrom(w: Scenario, r: nat): seq<Call>
    decreases w.config.maxRounds - r, 1
  {
    RoundCalls(w, r) + DecideCalls(w, r)
  }

  lemma {:induction false} PlayRuleStop(w: Scenario, p: Played, r: nat)
    requires RuleStops(w, r)
    ensures Play(w, p, DecideCalls(w, r)) == Play(w, Then(w, p, Save), [Save])
  {
    hide RuleStops, FailureOf;
    PlayTwo(w, p, Save, Save);
    PlayOne(w, Then(w, p, Save), Save);
  }

  lemma {:induction false} PlayReflection(w: Scenario, p: Played, r: nat)
    requires !RuleStops(w, r)
    ensures var reflected := Then(w, Then(w, p, Reflect(r)), Save);
      && Play(w, p, DecideCalls(w, r)) ==
           (if ReflectionStops(w, r) then Play(w, Then(w, reflected, Save), [Save])
            else Play(w, reflected, CallsFrom(w, r + 1)))
  {
    hide RuleStops, ReflectionStops, Then, CallsFrom;
    var reflected := Then(w, Then(w, p, Reflect(r)), Save);
    PlayTwo(w, p, Reflect(r), Save);
    if ReflectionStops(w, r) {
      PlayAppend(w, p, [Reflect(r), Save], [Save, Save]);
      PlayTwo(w, reflected, Save, Save);
      PlayOne(w, Then(w, reflected, Save), Save);
    } else {
      PlayAppend(w, p, [Reflect(r), Save], CallsFrom(w, r + 1));
    }
  }

  /** A round in its parts. */
  lemma {:induction false} PlayRound(w: Scenario, p: Played, r: nat)
    ensures var searched := Play(w, p, SearchCalls(r));
      var analysed := Play(w, Then(w, searched, Save), AnalysisCalls(w, r));
      Play(w, p, RoundCalls(w, r)) == Then(w, analysed, Save)
  {
    hide SearchCalls, AnalysisCalls, Then;
    var searched := Play(w, p, SearchCalls(r));
    PlayAppend(w, p, SearchCalls(r) + [Save] + AnalysisCalls(w, r), [Save]);
    PlayAppend(w, p, SearchCalls(r) + [Save], AnalysisCalls(w, r));
    PlayAppend(w, p, SearchCalls(r), [Save]);
    PlayOne(w, searched, Save);
    PlayOne(w, Play(w, Then(w, searched, Save), AnalysisCalls(w, r)), Save);
  }

  /** Everything between the first patch and the handling of a failure. */
  function BodyCalls(w: Scenario): seq<Call> {
    [Extract, Save] + CallsFrom(w, 1)
  }

  /** The first failing call of the body, after the `running` patch went through. */
  function BodyPlayed(w: Scenario): Played {
    Play(w, Played(None, 1), BodyCalls(w))
  }

  // ---------------------------------------------------------------------------------------
  // When nothing fails
  // ---------------------------------------------------------------------------------------

  /** One reference per candidate, in order, as the persistence activity promises
      (`CandidatePersistence.PersistCandidateSnapshots`). */
  ghost predicate OnePerCandidate(refs: seq<Ref>, candidates: seq<Candidate>) {
    |refs| == |candidates| && forall i :: 0 <= i < |refs| ==> refs[i].externalId == candidates[i].externalId
  }

  lemma {:induction false} WithRefsHas(table: map<string, Ref>, refs: seq<Ref>, candidates: seq<Candidate>)
    requires OnePerCandidate(refs, candidates)
    ensures forall c :: c in candidates ==> c.externalId in WithRefs(table, refs)
  {
    if refs != [] {
      var n := |refs| - 1;
      WithRefsHas(table, refs[..n], candidates[..n]);
      assert candidates == candidates[..n] + [candidates[n]];
    }
  }

  /** With one reference per admitted candidate the missing-reference error is out of reach. */
  lemma {:induction false} ReferencesFound(w: Scenario, r: nat)
    requires w.outside.references(r).Success? && OnePerCandidate(w.outside.references(r).value, NewIn(w, r))
    ensures MissingReference(NewIn(w, r), TableAfter(w, r)).None?
  {
    hide OnePerCandidate, NewIn;
    if NewIn(w, r) != [] {
      EmptyStart(w);
      WithRefsHas(TableAfter(w, r - 1), w.outside.references(r).value, NewIn(w, r));
    }
  }

  lemma {:induction false} EmptyStart(w: Scenario)
    ensures NewIn(w, 0) == []
  {
  }

  /** A round in which every outside call is answered well. */
  ghost predicate GoodRound(w: Scenario, r: nat) {
    && w.outside.pages(r).Success? && PageError(PageOf(w, r)).None?
    && w.outside.references(r).Success? && OnePerCandidate(w.outside.references(r).value, NewIn(w, r))
    && w.outside.matches(r).Success? && w.outside.analysesStored(r).None?
    && StrategyOf(w, r).Success?
  }

  ghost predicate EveryPatchTaken(w: Scenario) {
    forall n :: w.outside.patches(n).None?
  }

  lemma {:induction false} GoodRoundPlays(w: Scenario, p: Played, r: nat)
    requires p.error.None? && EveryPatchTaken(w) && GoodRound(w, r)
    ensures Play(w, p, RoundCalls(w, r)).error.None?
  {
    hide NewIn, PageOf, StrategyOf, OnePerCandidate;
    ReferencesFound(w, r);
    PlayRound(w, p, r);
    PlayFour(w, p, Save, Search(r), Save, CheckPage(r));
    if NewIn(w, r) != [] {
      var deduped := Then(w, Play(w, p, SearchCalls(r)), Save);
      PlayFour(w, deduped, StoreCandidates(r), Match(r), FindReferences(r), StoreAnalyses(r));
    }
  }

  lemma {:induction false} GoodRoundsPlay(w: Scenario, p: Played, r: nat)
    requires p.error.None? && EveryPatchTaken(w) && 0 < r
    requires forall n :: r <= n <= LastRound(w, r) ==> GoodRound(w, n)
    requires !RuleStops(w, LastRound(w, r)) ==> StrategyOf(w, LastRound(w, r) + 1).Success?
    ensures Play(w, p, CallsFrom(w, r)).error.None?
    decreases w.config.maxRounds - r
  {
    hide GoodRound, RoundCalls, RuleStops, ReflectionStops, StrategyOf;
    PlayAppend(w, p, RoundCalls(w, r), DecideCalls(w, r));
    LastRoundMeaning(w, r);
    GoodRoundPlays(w, p, r);
    var listed := Play(w, p, RoundCalls(w, r));
    if RuleStops(w, r) {
      PlayTwo(w, listed, Save, Save);
    } else {
      PlayTwo(w, listed, Reflect(r), Save);
      var reflected := Play(w, listed, [Reflect(r), Save]);
      if ReflectionStops(w, r) {
        PlayAppend(w, listed, [Reflect(r), Save], [Save, Save]);
        PlayTwo(w, reflected, Save, Save);
      } else {
        PlayAppend(w, listed, [Reflect(r), Save], CallsFrom(w, r + 1));
        NotLast(w, r);
        GoodRoundsPlay(w, reflected, r + 1);
      }
    }
  }

  lemma {:induction false} NotLast(w: Scenario, r: nat)
    requires !RuleStops(w, r) && !ReflectionStops(w, r)
    ensures r < w.config.maxRounds && LastRound(w, r) == LastRound(w, r + 1)
    ensures (forall n :: r <= n <= LastRound(w, r) ==> GoodRound(w, n)) ==> StrategyOf(w, r + 1).Success?
  {
    hide StreakOf, SameQueryAgain, StrategyOf;
    if forall n :: r <= n <= LastRound(w, r) ==> GoodRound(w, n) {
      LastRoundMeaning(w, r + 1);
      assert GoodRound(w, r + 1);
    }
  }

  /** If every patch is taken and every round up to the last is answered well, no call fails. */
  lemma {:induction false} NothingFails(w: Scenario)
    requires EveryPatchTaken(w)
    requires forall n :: 1 <= n <= LastRound(w, 1) ==> GoodRound(w, n)
    requires !RuleStops(w, LastRound(w, 1)) ==> StrategyOf(w, LastRound(w, 1) + 1).Success?
    ensures BodyPlayed(w).error.None?
  {
    hide RuleStops, StrategyOf, CallsFrom;
    LastRoundMeaning(w, 1);
    assert GoodRound(w, 1);
    PlayAppend(w, Played(None, 1), [Extract, Save], CallsFrom(w, 1));
    PlayTwo(w, Played(None, 1), Extract, Save);
    GoodRoundsPlay(w, Play(w, Played(None, 1), [Extract, Save]), 1);
  }

  /** With every patch taken, a run whose rounds before `r` are answered well gets to round `r`, if it does
      not stop before. */
  lemma {:induction false} ReachRound(w: Scenario, p: Played, from: nat, r: nat) returns (q: Played)
    requires p.error.None? && EveryPatchTaken(w) && 0 < from <= r <= LastRound(w, from)
    requires forall n :: from <= n < r ==> GoodRound(w, n)
    requires StrategyOf(w, r).Success?
    ensures q.error.None? && Play(w, p, CallsFrom(w, from)) == Play(w, q, CallsFrom(w, r))
    decreases r - from
  {
    hide GoodRound, RoundCalls, RuleStops, ReflectionStops, StrategyOf;
    if from == r {
      q := p;
    } else {
      LastRoundMeaning(w, from);
      assert !RuleStops(w, from) && !ReflectionStops(w, from);
      GoodRoundPlays(w, p, from);
      var listed := Play(w, p, RoundCalls(w, from));
      PlayAppend(w, p, RoundCalls(w, from), DecideCalls(w, from));
      PlayReflection(w, listed, from);
      assert StrategyOf(w, from + 1).Success? by { if from + 1 < r { GoodStrategy(w, from + 1); } }
      q := ReachRound(w, Then(w, Then(w, listed, Reflect(from)), Save), from + 1, r);
    }
  }

  lemma {:induction false} GoodStrategy(w: Scenario, r: nat)
    requires GoodRound(w, r)
    ensures StrategyOf(w, r).Success?
  {
  }

  /** What a failing answer of a round makes of the rest of the run, whatever follows it. */
  lemma {:induction false} FailingRound(w: Scenario, p: Played, r: nat)
    requires p.error.None? && EveryPatchTaken(w) && r > 0
    ensures var e, o := Play(w, p, CallsFrom(w, r)).error, w.outside;
      && (o.pages(r).Failure? ==> e == Some(o.pages(r).error))
      && (o.pages(r).Success? && o.pages(r).value.errorCode.GetOr("") != "" ==>
            var message := o.pages(r).value.errorMessage.GetOr("");
            e == Some(Error(o.pages(r).value.errorCode.value, if message != "" then message else "CTS search failed.")))
      && (AnsweredPage(w, r) && NewIn(w, r) != [] ==>
            && (o.references(r).Failure? ==> e == Some(o.references(r).error))
            && (o.references(r).Success? && o.matches(r).Failure? ==> e == Some(o.matches(r).error))
            && (o.references(r).Success? && o.matches(r).Success? ==>
                  && (MissingReference(NewIn(w, r), TableAfter(w, r)).Some? ==>
                        e == MissingReference(NewIn(w, r), TableAfter(w, r)))
                  && (MissingReference(NewIn(w, r), TableAfter(w, r)).None? && o.analysesStored(r).Some? ==>
                        e == o.analysesStored(r))))
      && (GoodRound(w, r) && !RuleStops(w, r) && o.reflections(r).Failure? ==> e == Some(o.reflections(r).error))
  {
    hide NewIn, OnePerCandidate, GoodRound, RuleStops, ReflectionStops, RoundCalls, DecideCalls, TableAfter, Play;
    hide MissingReference;
    var searched := Play(w, p, SearchCalls(r));
    var deduped, listed := Then(w, searched, Save), Play(w, p, RoundCalls(w, r));
    PlayAppend(w, p, RoundCalls(w, r), DecideCalls(w, r));
    PlayRound(w, p, r);
    PlayFour(w, p, Save, Search(r), Save, CheckPage(r));
    if searched.error.Some? { PlayFailed(w, deduped, AnalysisCalls(w, r)); }
    if NewIn(w, r) != [] {
      PlayFour(w, deduped, StoreCandidates(r), Match(r), FindReferences(r), StoreAnalyses(r));
    }
    if listed.error.Some? { PlayFailed(w, listed, DecideCalls(w, r)); }
    if GoodRound(w, r) && !RuleStops(w, r) && w.outside.reflections(r).Failure? {
      GoodRoundPlays(w, p, r);
      PlayReflection(w, listed, r);
      PlayStopped(w, Then(w, Then(w, listed, Reflect(r)), Save), r);
    }
  }

  lemma {:induction false} PlayStopped(w: Scenario, p: Played, r: nat)
    requires p.error.Some?
    ensures Then(w, p, Save) == p && Play(w, p, [Save]) == p && Play(w, p, CallsFrom(w, r + 1)) == p
  {
    PlayFailed(w, p, [Save]);
    PlayFailed(w, p, CallsFrom(w, r + 1));
  }

  /** The page of a round is answered and carries no error code. */
  ghost predicate AnsweredPage(w: Scenario, r: nat) {
    w.outside.pages(r).Success? && w.outside.pages(r).value.errorCode.GetOr("") == ""
  }

  /** How call `i` fails after the patches that the calls before it send. */
  function FailureAt(w: Scenario, sent: nat, calls: seq<Call>, i: nat): Option<Error>
    requires i < |calls|
    decreases i
  {
    if i == 0 then FailureOf(w, sent, calls[0])
    else FailureAt(w, if calls[0].Save? then sent + 1 else sent, calls[1..], i - 1)
  }

  ghost predicate NoneFailBefore(w: Scenario, sent: nat, calls: seq<Call>, n: nat)
    requires n <= |calls|
  {
    forall i: nat :: i < n ==> FailureAt(w, sent, calls, i).None?
  }

  /** Playing ends in the failure of the first call that fails, all calls before it having succeeded. */
  lemma {:induction false} FirstFailure(w: Scenario, sent: nat, calls: seq<Call>) returns (n: nat)
    ensures n <= |calls| && NoneFailBefore(w, sent, calls, n)
    ensures Play(w, Played(None, sent), calls).error == if n < |calls| then FailureAt(w, sent, calls, n) else None
    ensures n < |calls| ==> FailureAt(w, sent, calls, n).Some?
    decreases |calls|
  {
    hide FailureOf;
    if calls == [] || FailureOf(w, sent, calls[0]).Some? {
      n := 0;
      if calls != [] { PlayFailed(w, Then(w, Played(None, sent), calls[0]), calls[1..]); }
    } else {
      var next := if calls[0].Save? then sent + 1 else sent;
      var m := FirstFailure(w, next, calls[1..]);
      n := m + 1;
      forall i: nat | i < n ensures FailureAt(w, sent, calls, i).None? {
        if i > 0 { assert FailureAt(w, sent, calls, i) == FailureAt(w, next, calls[1..], i - 1); }
      }
    }
  }
}
