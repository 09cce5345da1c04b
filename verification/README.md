# Verified model of the bounded agent run

The system searches candidates for a job description in a bounded number of rounds. A worker extracts a search strategy,
then in every round searches one page, drops resumes it has already seen, stores the new candidates, has each one matched,
folds them into a top-k shortlist, and applies stop rules or asks a reflector for the next query. It keeps a workflow-side
state beside a persisted record that changes only through patches, and any step may fail.

The model follows the program's own structure:

- `OutsideWorld.dfy`: everything that answers from outside (agents, resume source, persistence activities, trace exporter)
  as one arbitrary value, limited only by the field bounds of the answers' types. It says what follows from the answers
  alone: what each round searches, admits and analyses, where the run stops, and its outside calls in order.
- `Execution.dfy`: the execution state and the protocol, as a class whose methods change its fields and the store and read
  the outside's answers. An activity takes effect once and returns, or fails without effect.
- `RunRecord.dfy`: the persisted run, patch application and auditing; what every committed record satisfies and how one
  may follow another. `LogGrammar.dfy` is the grammar of the step log, `Rounds.dfy` the pure parts of a round,
  `Progress.dfy` what a run has requested and analysed so far, `LogContents.dfy` what every step of the log says in terms
  of the answers, `RunGuarantees.dfy` what the invariants mean for a reader.
- `Sorting.dfy`, `Shortlist.dfy`: the stable sort and the streaming shortlist.
- `RunConfig.dfy`, `Query.dfy`, `Paging.dfy`, `ResumeSource.dfy`: configuration, query algebra, offsets and pages, and the
  in-memory resume source.
- `Json.dfy`, `RunLog.dfy`, `Ledger.dfy`: JSON payloads, the step log with its compaction, and the round ledger.
- `JsonText.dfy`, `Prompt.dfy`, `Text.dfy`: printing and reading JSON text, prompts and their markers.
- `UnitOfWork.dfy`, `CandidatePersistence.dfy`: sessions, commits and the retry-safe candidate activities.

A fresh run is queued with empty log, seen ids and shortlist, and a configuration that normalisation accepted; that is the
only precondition of the whole-run result.

Places where the code does less than one might expect of it, each with its exact condition proved:

- Compaction is not idempotent for an analysis step whose `analyses` value is present but not a list
  (`RunLog.CompactIdempotent`, `RunLog.CompactTwiceDiffers`).
- One strategy normalisation is not always a fixed point; two are (`Query.OnceIsFixedPoint`, `Query.TwiceIsFixedPoint`).
- Fetch sizes that do not divide the sum of the earlier ones leave gaps or overlaps (`Paging.TilesIffAligned`).
- An empty query delta does not imply an equal signature when a term is repeated. Against a query without repeated terms
  the signatures are equal exactly when the other query repeats none either (`Query.EmptyDeltaSameSignature`); the
  implication holds for all repetition-free queries exactly from a repetition-free query (`Query.RepetitionDecides`), and
  for all queries only from one without terms (`Query.OnlyTermlessDecide`).
- A candidate request that lists a new candidate twice cannot be committed, because a query does not see pending rows
  (`CandidatePersistence.CommitsIff`). Deduplication never sends such a request
  (`CandidatePersistence.DedupedRequestCommits`).
- The ranking keeps one candidate even for a limit below one, since the size is tested after the append
  (`Shortlist.RankCandidates`, `Shortlist.LimitRespected`); a normalised configuration has a positive limit.

## Model

| member | source | states |
|---|---|---|
| Execution.ExecuteAgentRun | services/temporal-worker/src/cvm_worker/execution.py:532-1091 | For a fresh run with a normalised configuration, whatever the outside answers: the outcome is the one its answers determine, completed exactly when none of the calls the run makes fails, and otherwise failed with the code and message of the first failing call, unless the patch that records it is refused; the stored status matches and is audited once; every committed record is in order, logs exactly the analyses that the answers of its rounds give and stores their ranking; every step of the log says of its round what the answers to it make of it; a completed run stopped at the first round whose answers stop it, between the minimum and `maxRounds`. |
| Execution.AgentRun.RunToCompletion | services/temporal-worker/src/cvm_worker/execution.py:566-1062 | The body of the `try` fails exactly as the first failing one of its outside calls, in their order, and otherwise completes the run with everything a completed run promises. |
| Execution.AgentRun.RunRounds | services/temporal-worker/src/cvm_worker/execution.py:614-1031 | The loop always ends by a stop, at the first round that a rule or the reflector's answer stops, never by running out of schedule; it fails exactly as the first failing outside call of its rounds. |
| Execution.AgentRun.RunRound | services/temporal-worker/src/cvm_worker/execution.py:614-1031 | One round makes exactly its own outside calls in order, and ends in the first failure among them, or stopped exactly when its rule or answer stops it, or ready for the next round with the strategy the reflector asked for. |
| Execution.AgentRun.StartRound | services/temporal-worker/src/cvm_worker/execution.py:618-620 | Starting a round advances only the stored round number; the log stays where it stands. |
| Execution.AgentRun.SearchRound | services/temporal-worker/src/cvm_worker/execution.py:618-663 | The request asks for the first position not yet fetched for its signature; the offset advances by the number of candidates returned, also for an error page; the search step records the query, the page and that offset; the error is the first of a refused round patch, a failed search, a refused step patch, and the code of the page with its message or the default one, and without an error the page has no code. |
| Execution.AgentRun.FetchRound | services/temporal-worker/src/cvm_worker/execution.py:618-705 | Search and deduplication admit exactly what the round's answered page adds to the pages before it. |
| Execution.AgentRun.ListRound | services/temporal-worker/src/cvm_worker/execution.py:618-859 | A round up to its shortlist makes exactly its own outside calls in order and fails as the first that fails. |
| Execution.AgentRun.DedupeRound | services/temporal-worker/src/cvm_worker/execution.py:665-705 | Exactly the admitted ids of the round's own page are appended to the seen ids, in the same patch as the dedupe step that lists them. |
| Execution.AgentRun.AnalyseRound | services/temporal-worker/src/cvm_worker/execution.py:706-747 | The batch is the capped match answer for each admitted candidate, in order; it fails exactly as the first failing one of storing candidates, matching, finding every reference and storing analyses, so never with one reference per candidate and good answers. |
| Execution.AgentRun.PersistSnapshots | services/temporal-worker/src/cvm_worker/execution.py:706-719 | The references answered for the round are entered under the external ids they name; a failed activity leaves the table alone. |
| Execution.AgentRun.AnalyzeRoundCandidates | services/temporal-worker/src/cvm_worker/execution.py:1159-1237 | The matcher's failure comes first, then the first candidate without a reference; otherwise there is one analysis per candidate. |
| Execution.AgentRun.CombineResults | services/temporal-worker/src/cvm_worker/execution.py:1194-1236 | Fails exactly with the first candidate without a persisted reference; otherwise pairs each candidate, in order, with its own reference and its own answer: an answer of 0.99 or more scores 0.99, any other one its own score. |
| OutsideWorld.WithRefsHas | services/temporal-worker/src/cvm_worker/execution.py:714-719 | One reference per candidate is enough for every candidate to be found in the table. |
| OutsideWorld.ReferencesFound | services/temporal-worker/src/cvm_worker/execution.py:1194-1200 | When the activity answers one reference per admitted candidate, no reference is missing. |
| OutsideWorld.MissingReference | services/temporal-worker/src/cvm_worker/execution.py:1194-1200 | There is no missing-reference error exactly when every candidate has a reference. |
| Execution.AgentRun.RankRound | services/temporal-worker/src/cvm_worker/execution.py:748-859 | The analysis and shortlist steps and the new shortlist are committed by one patch; the round's own match answers join the history, the shortlist is its fold, and the progress counter equals the trailing streak of rounds without change. |
| Execution.AgentRun.SavePair | services/temporal-worker/src/cvm_worker/execution.py:748-850 | The two steps are numbered one after the other and never committed apart; the analysis step lists exactly the analyses of the batch that the record then tells in addition. |
| Execution.AgentRun.CountProgress | services/temporal-worker/src/cvm_worker/execution.py:852-859 | The counter after a round is exactly the number of latest rounds in a row that left the shortlist ids unchanged. |
| Execution.AgentRun.DecideRound | services/temporal-worker/src/cvm_worker/execution.py:861-1031 | The run stops exactly when no round is left, or past the minimum when two rounds in a row made no progress, the reflector wants to stop, or the next query repeats the signature after a round without progress; each case records its own reason. |
| Execution.AgentRun.ReflectAndDecide | services/temporal-worker/src/cvm_worker/execution.py:894-1031 | Without a stop rule the run reflects, and goes on exactly with the strategy the reflector asked for. |
| Execution.AgentRun.StopOrGoOn | services/temporal-worker/src/cvm_worker/execution.py:969-1031 | After a reflection the run stops exactly when it asks to or when, past the minimum and after a round without progress, the next query has the same signature, with the reason of that case. |
| Execution.AgentRun.ReflectRound | services/temporal-worker/src/cvm_worker/execution.py:894-968 | The reflector is shown a ledger that tells every round so far; a wish to stop is honoured exactly from the minimum on; the next strategy is built from the query answered for this round, and the reflection step records it and the delta from the current query. |
| Execution.AgentRun.SaveReflection | services/temporal-worker/src/cvm_worker/execution.py:925-968 | The reflection step records the next query and the exact delta from the current one, and makes the log ready for the next round. |
| Execution.AgentRun.Reflect | services/temporal-worker/src/cvm_worker/execution.py:912-923 | An answer is changed only when it would stop before the minimum; it then keeps its query and its reason, with a note added, and gets the default goal. |
| Execution.AgentRun.ReflectorLedger | services/temporal-worker/src/cvm_worker/execution.py:894-899 | The ledger shown to the reflector, built from compacted steps, is the ledger of the full persisted log with only the analysis entries cut down; after a shortlist it has one entry for each round so far, and every part of it tells what the round did. |
| Execution.AgentRun.SaveStop | services/temporal-worker/src/cvm_worker/execution.py:867-892 | A stop step is accepted after the shortlist or the reflection of its round, and its reason becomes the run's stop reason. |
| Execution.AgentRun.ExtractStrategy | services/temporal-worker/src/cvm_worker/execution.py:567-612 | The strategy step comes first and outside any round and lists the answer's requirements; the strategy is built from its query, and without a usable keyword the run fails with the strategy's error code. |
| Execution.AgentRun.FinalizeRun | services/temporal-worker/src/cvm_worker/execution.py:1033-1065 | Completion, final shortlist, finalize step and audit entry are one commit; the finalize step shows every field of every shortlisted candidate and the reason of the stop. |
| Execution.AgentRun.FailRun | services/temporal-worker/src/cvm_worker/execution.py:1073-1084 | The failure patch resynchronises the view, keeps log and shortlist as they were, and audits the cause once. |
| Execution.AgentRun.Conclude | services/temporal-worker/src/cvm_worker/execution.py:1066-1091 | The outcome is the one the cause and the answer to the failure patch determine, and agrees with stored status and audit log; the trace is published either way: it is stored, or a warning naming the status is logged exactly when its patch is taken. |
| Execution.AgentRun.StartRun | services/temporal-worker/src/cvm_worker/execution.py:549-555 | A refused `running` patch raises with its error and leaves the run queued; after it the outcome is that of the body's calls. |
| Execution.AgentRun.PublishTraceQuietly | services/temporal-worker/src/cvm_worker/execution.py:338-399 | A published trace is stored; the log gains one warning step, under the current round and naming the terminal status and the failure, exactly when publication fails and the patch is taken; nothing else of the run changes in any case. |
| Execution.AgentRun.AppendStep | services/temporal-worker/src/cvm_worker/execution.py:1094-1115 | The new step is numbered after persisted and unsaved steps together, carries what it was given, and the view stays the compaction of both. |
| Execution.AgentRun.PersistPatch | services/temporal-worker/src/cvm_worker/execution.py:402-421 | A patch takes effect once and the view becomes a snapshot of the record, or nothing changes at all; which of the two is the outside's answer to that patch. |
| Execution.AgentRun.SaveStep | services/temporal-worker/src/cvm_worker/execution.py:1094-1115 | Persisting a step the grammar allows keeps every committed record in order and the view in step with the store. |
| Execution.AgentRun.SavePatch | services/temporal-worker/src/cvm_worker/execution.py:1077-1084 | A patch without steps keeps the record in order and, on success, leaves no step unsaved. |
| Execution.AgentRun.SaveRoundStep | services/temporal-worker/src/cvm_worker/execution.py:1094-1115 | A step within a round leaves the run open; only a dedupe step extends the seen ids, by exactly the ids it lists as admitted. |
| Execution.AgentRun.RecordRequest | services/temporal-worker/src/cvm_worker/execution.py:627 | The offset table stays, for every signature, the sum of what its requests returned. |
| RunGuarantees.CompletedLogForm | services/temporal-worker/src/cvm_worker/execution.py:589-1065 | The persisted steps of a completed run are strategy, then search dedupe analysis shortlist reflection for every round but the last, then search dedupe analysis shortlist, then stop or reflection stop, then finalize, then at most one warning; one search step per round and exactly one stop step. |
| RunGuarantees.UnfinishedLogForm | services/temporal-worker/src/cvm_worker/execution.py:1073-1091 | The log of a run that is not completed is a prefix of such a log without finalize, never ending between analysis and shortlist, with at most one warning after it and at most one stop step. |
| RunGuarantees.NoResumeAnalysedTwice | services/temporal-worker/src/cvm_worker/execution.py:1138-1156 | The ids analysed over all rounds of a run are pairwise distinct. |
| RunGuarantees.RanksNeverFall | services/temporal-worker/src/cvm_worker/execution.py:795-799 | From any round to any later one the shortlist is no shorter and the score at each rank no lower. |
| RunGuarantees.StoredRanksNeverFall | services/temporal-worker/src/cvm_worker/execution.py:844-850 | From any committed state to any later one the stored shortlist gets no shorter and no rank of it loses score. |
| RunGuarantees.RunDropsForGood | services/temporal-worker/src/cvm_worker/execution.py:795-799 | A candidate analysed by some committed state but missing from the shortlist stored there is missing from the shortlist of every later committed state. |
| RunGuarantees.LaterTellsMore | services/temporal-worker/src/cvm_worker/execution.py:844-850 | Later committed states store the ranking of at least as many batches, under the same configuration. |
| RunGuarantees.StoredShortlistMeaning | services/temporal-worker/src/cvm_worker/execution.py:1240-1264 | The stored shortlist holds distinct ids of analysed candidates; everyone left out ranks behind everyone kept, and someone is left out only when it is full. |
| RunGuarantees.ShortlistRanksTheLog | services/temporal-worker/src/cvm_worker/execution.py:748-850 | The stored shortlist ranks the analyses that the record's own analysis steps list: every entry is listed, with its score and round, and every listed analysis is represented or ranks behind a full list. |
| RunGuarantees.ScoresAreAnswers | services/temporal-worker/src/cvm_worker/execution.py:1194-1236 | Every stored entry and every analysis the log tells is the matcher's own answer for that candidate, capped at 0.99. |
| RunGuarantees.BelowOffsetIsAnalysed | services/temporal-worker/src/cvm_worker/execution.py:1118-1156 | Against a source with fixed lists, when each fetch size divides every earlier one, a completed run has analysed every entry below the offset it reached in each list. |
| RunGuarantees.MatchesBelowOffsetAnalysed | services/platform-api/src/cvm_platform/infrastructure/adapters.py:895-919 | Against the in-memory source, when each fetch size divides every earlier one: of the corpus entries whose text contains some term of a searched query (all entries, if it has none), a completed run has analysed each one below the offset it reached for that query's signature. |
| RunGuarantees.CompletesIff | services/temporal-worker/src/cvm_worker/execution.py:532-1091 | A run completes if and only if it loads, its first patch is taken and none of the outside calls of its body fails. |
| RunGuarantees.CauseIsFirstFailure | services/temporal-worker/src/cvm_worker/execution.py:1073-1084 | The cause recorded is the failure of the first of the body's calls that fails, all before it having succeeded; the run then fails, or raises what refuses its failure patch. |
| RunGuarantees.GoodAnswersComplete | services/temporal-worker/src/cvm_worker/execution.py:532-1091 | With every patch taken and every round up to the last answered well (page, one reference per candidate, matches, storage, a usable next query), the run completes. |
| RunGuarantees.FailingAnswerIsCause | services/temporal-worker/src/cvm_worker/execution.py:618-1084 | With every patch taken and the rounds before answered well, a failing answer of a round that is reached fails the run, with that answer as the recorded cause. |
| RunGuarantees.ErrorPageFails | services/temporal-worker/src/cvm_worker/execution.py:659-663 | A page with an error code fails the run with that code and the page's message, or the default one. |
| RunGuarantees.ProgressGoesOn | services/temporal-worker/src/cvm_worker/execution.py:852-998 | After a round that changed the shortlist ids, with a round left and a reflector that continues, a completed run searched again, whatever query was asked for. |
| RunGuarantees.LedgerDuplicates | services/platform-api/src/cvm_platform/application/agent_runs.py:245-252 | The duplicates a ledger shows for a round are the ids of its page that were not admitted, with multiplicity. |
| OutsideWorld.FirstFailure | services/temporal-worker/src/cvm_worker/execution.py:566-1091 | Playing a list of calls ends in the failure of the first one that fails, with patches counted as they are sent. |
| OutsideWorld.NothingFails | services/temporal-worker/src/cvm_worker/execution.py:566-1062 | Good answers in every round up to the last leave no failing call. |
| OutsideWorld.LastRoundMeaning | services/temporal-worker/src/cvm_worker/execution.py:861-1031 | The last round is the first that a rule or the reflector's answer stops, and never exceeds `maxRounds`. |
| OutsideWorld.LastRoundExactly | services/temporal-worker/src/cvm_worker/execution.py:852-1031 | The run ends after round r if and only if r is the first round after which no round is left, or past the minimum two rounds in a row left the shortlist ids as they were, or the reflector wants to stop, or this round left them as they were and the next query has the same signature. |
| OutsideWorld.FailingRound | services/temporal-worker/src/cvm_worker/execution.py:618-923 | What a failing answer makes of a round: the failure of the page, its error code, the storage of candidates, the matcher, a missing reference, the storage of analyses or the reflector, in this order. |
| OutsideWorld.SeenByRequests | services/temporal-worker/src/cvm_worker/execution.py:665-671 | The ids seen after the requests made are those of the answered pages, deduplicated one after the other. |
| OutsideWorld.BatchRound | services/temporal-worker/src/cvm_worker/execution.py:1194-1236 | What a round analyses is exactly what it admits, each with a score in [0, 0.99], a reason and the round's own number. |
| OutsideWorld.BatchAnswers | services/temporal-worker/src/cvm_worker/execution.py:1194-1236 | Each analysed candidate carries the matcher's own answer for it, 0.99 for any answer at or above that and the answer itself below, under the reference answered for that candidate. |
| OutsideWorld.BetterAnswerKept | services/temporal-worker/src/cvm_worker/execution.py:1223 | A better answer never gets the lower score, and below 0.99 the order of the answers is the order of the scores. |
| OutsideWorld.WithRefsMeaning | services/temporal-worker/src/cvm_worker/execution.py:714-719 | Under an id the table holds the last reference naming it, and otherwise what it held before. |
| OutsideWorld.StrategiesAreNormal | services/temporal-worker/src/cvm_worker/models.py:105-145 | Every strategy a run searches is in normal form. |
| OutsideWorld.StrategySucceedsIff | services/temporal-worker/src/cvm_worker/models.py:105-145 | A round has a strategy exactly when its query was answered, there is a job description, and keyword, must-terms or should-terms are not all blank; it is then built from that very query. |
| Progress.RequestsTile | services/temporal-worker/src/cvm_worker/execution.py:1118-1135 | When each fetch size divides every earlier one, the pages a run requests tile each signature's result list: until the first short page the fetched entries are exactly the first `offset` ones, a short page completes the list, and after it the whole list stays fetched however many requests follow. |
| Progress.FetchedAreSeen | services/temporal-worker/src/cvm_worker/execution.py:621-671 | Every entry fetched for a signature has been seen, whatever the other rounds fetched. |
| Progress.BelowOffsetIsSeen | services/temporal-worker/src/cvm_worker/execution.py:621-671 | When each fetch size divides every earlier one, no entry below a signature's offset was passed over: all of them are seen. |
| Progress.OffsetsAgree | services/temporal-worker/src/cvm_worker/execution.py:621-627 | Against a source with fixed lists the worker's offsets are those of the page-by-page fetch. |
| Progress.PagesAppend | services/temporal-worker/src/cvm_worker/execution.py:1118-1135 | One more request for the first unfetched position keeps the request history and offset table consistent. |
| Progress.RequestAppend | services/temporal-worker/src/cvm_worker/execution.py:994-1031 | Starting an allowed round keeps the rule that no idle round is repeated. |
| Progress.KeptPair | services/temporal-worker/src/cvm_worker/execution.py:844-850 | The two-step patch adds one batch: its analyses to those the log lists, and its ranking to the shortlists the log lists and stores. |
| Progress.AnalysisStepTells | services/temporal-worker/src/cvm_worker/execution.py:760-793 | The analysis step of a round lists exactly its batch: ids, name, score, reason and round. |
| Progress.CompactedLogTells | services/temporal-worker/src/cvm_worker/models.py:509-519 | The compacted view lists the same analyses as the full log. |
| Progress.CorpusHasLists | services/platform-api/src/cvm_platform/infrastructure/adapters.py:895-919 | A fixed corpus answers every normalised query of one signature from one fixed list. |
| Progress.KeptStep | services/temporal-worker/src/cvm_worker/execution.py:1094-1115 | Any other step leaves batches and shortlist as recorded. |
| Progress.SeenAtDedupe | services/temporal-worker/src/cvm_worker/execution.py:665-705 | The dedupe step of a round keeps the seen ids equal to the deduplicated pages so far. |
| Progress.SeenAtNext | services/temporal-worker/src/cvm_worker/execution.py:1094-1115 | No other step of the grammar moves the seen ids. |
| Progress.TellsMore | services/temporal-worker/src/cvm_worker/execution.py:614-1031 | What the committed records tell of batches and pages stays true as the run goes on. |
| Progress.StreamedAreSeen | services/temporal-worker/src/cvm_worker/execution.py:795-799 | Every shortlisted id is a seen id. |
| LogContents.LedgerTells | services/platform-api/src/cvm_platform/application/agent_runs.py:229-290 | A ledger of a run's log, full or compacted, tells in every entry what its round did: length of the page, number admitted, the duplicates, the analyses of its batch, the ranking after it with every field, the reflector's answer and the reason of the stop; and the extraction as answered. |
| LogContents.LedgerAfterShortlist | services/platform-api/src/cvm_platform/application/agent_runs.py:229-290 | After a shortlist the ledger has the rounds so far in order, all with search, dedupe, analysis and shortlist, all but the last with a reflection, none with a stop. |
| LogContents.SearchPayloadSays | services/temporal-worker/src/cvm_worker/execution.py:636-652 | The search step shows query, page numbers, total, number and ids of the candidates, error code and message of the page, and the offset. |
| LogContents.DedupePayloadSays | services/temporal-worker/src/cvm_worker/execution.py:692-697 | The dedupe step shows the ids admitted, the duplicate ids and the number seen. |
| LogContents.AnalysisPayloadSays | services/temporal-worker/src/cvm_worker/execution.py:767-793 | The analysis step shows id, name, score and reason of each analysed candidate, in order. |
| LogContents.ShortlistPayloadSays | services/temporal-worker/src/cvm_worker/execution.py:823-843 | The shortlist step shows the ranking after its round with every field, its length, and the ids analysed and retained. |
| LogContents.ReflectionPayloadSays | services/temporal-worker/src/cvm_worker/execution.py:911-967 | The reflection step shows the answer, or the one that replaces a wish to stop before the minimum, with next query, delta and whether it was replaced. |
| LogContents.StopIsSaid | services/temporal-worker/src/cvm_worker/execution.py:861-1031 | The stop step shows the reason and source of the way the run was stopped, and the repeated query exactly when that is the reason. |
| LogContents.FinalizePayloadSays | services/temporal-worker/src/cvm_worker/execution.py:1046-1056 | The finalize step shows the final ranking with every field, and the reason of the stop. |
| Rounds.DedupeCandidates | services/temporal-worker/src/cvm_worker/execution.py:1138-1156 | Admits, in page order, the first occurrence of every unseen id, lists the rest as duplicates, and appends the admitted ids to the seen ones. |
| Rounds.DedupeAccountsForAll | services/temporal-worker/src/cvm_worker/execution.py:1138-1156 | Admitted and duplicate entries together are the page, with multiplicity. |
| Rounds.AdmittedMembers | services/temporal-worker/src/cvm_worker/execution.py:1138-1156 | An id is admitted exactly when the page has it and it was not seen. |
| Rounds.DedupeSplitsPage | services/temporal-worker/src/cvm_worker/execution.py:1138-1156 | The places of a page are split: a place is admitted exactly when its id was not seen and no earlier place has it, the others are listed as duplicates, both in page order. |
| Rounds.SeenStaysDistinct | services/temporal-worker/src/cvm_worker/execution.py:1138-1156 | Seen ids stay free of repetition. |
| Rounds.StreakMeaning | services/temporal-worker/src/cvm_worker/execution.py:852-859 | The streak counts the maximal run of latest rounds that left the shortlist ids as they were. |
| Rounds.EmptyRoundNoProgress | services/temporal-worker/src/cvm_worker/execution.py:855-856 | A round with nothing new to analyse leaves the shortlist as it is. |
| RunRecord.RunStore.ApplyPatch | services/temporal-worker/src/cvm_worker/activities.py:75-113 | A patch assigns the fields it sets, appends its steps, audits exactly a transition into a terminal status, commits one new state and answers with its compacted snapshot. |
| RunRecord.RunStore.AssignFields | services/temporal-worker/src/cvm_worker/activities.py:85-106 | Field by field: what the patch sets is assigned, what it does not set is kept, steps are appended, and clearing errors comes before setting them. |
| RunRecord.RunStore.AuditStatusTransition | services/temporal-worker/src/cvm_worker/activities.py:351-396 | One entry for completed with rounds and shortlist size, one for failed with code and message, none otherwise. |
| RunRecord.RunStore.Load | services/temporal-worker/src/cvm_worker/activities.py:65-72 | What the workflow loads is the record with compacted steps. |
| RunRecord.RunStore.RecordTrace | services/temporal-worker/src/cvm_worker/activities.py:132-162 | Publication stores the trace id and URL and leaves every other field of the run alone. |
| RunRecord.HistoryGrows | services/temporal-worker/src/cvm_worker/activities.py:75-113 | Between any two committed states log and seen ids grow only by appending, the configuration stays, and a terminal status is never left. |
| RunRecord.SavedStepOk | services/temporal-worker/src/cvm_worker/execution.py:1094-1115 | Committing one allowed step keeps the record in order: contiguous numbers, grammar, seen ids equal to the admitted ids of the dedupe steps, shortlist within the seen ids, completed exactly when finalised. |
| RunRecord.SavedPairOk | services/temporal-worker/src/cvm_worker/execution.py:844-850 | Committing analysis and shortlist together does so too, although the log in between would not be in order. |
| RunRecord.PlainPatchOk | services/temporal-worker/src/cvm_worker/execution.py:1077-1084 | A patch without steps keeps the record in order. |
| LogGrammar.GrammarMeaning | services/temporal-worker/src/cvm_worker/execution.py:589-1065 | The step-by-step automaton accepts exactly the explicit log forms, phase by phase. |
| LogGrammar.StepCounts | services/temporal-worker/src/cvm_worker/execution.py:861-1031 | An accepted log has one search step per round, a stop step exactly when it has stopped, only one, in its last round. |
| LogGrammar.PrefixClosed | services/temporal-worker/src/cvm_worker/execution.py:1094-1115 | Every prefix of an accepted log is accepted. |
| Shortlist.RankCandidates | services/temporal-worker/src/cvm_worker/execution.py:1240-1264 | The loop over the sorted merge, with its early exit, computes the first k distinct ids of one stable sort by (-score, round, id). |
| Shortlist.StreamingEqualsBatch | services/temporal-worker/src/cvm_worker/execution.py:1240-1264 | Ranking a batch on top of a ranking equals ranking everything at once, for all lists, also overlapping ones, and every k. |
| Shortlist.StreamedIsBatch | services/temporal-worker/src/cvm_worker/execution.py:795-799 | After any number of rounds the folded shortlist is the batch ranking of everything analysed. |
| Shortlist.TopKMeaning | services/temporal-worker/src/cvm_worker/execution.py:1240-1264 | What a ranking is without saying how it is computed: higher score first, then earlier round, then smaller id; distinct ids from the input, every input represented by an entry at least as good or behind a full list. |
| Shortlist.LimitRespected | services/temporal-worker/src/cvm_worker/execution.py:1254-1264 | The ranking never exceeds its limit if and only if the limit is at least one. |
| Shortlist.ShortlistImproves | services/temporal-worker/src/cvm_worker/execution.py:795-799 | A further round never shortens the shortlist and never lowers the score at a rank. |
| Shortlist.DroppedNeverReturns | services/temporal-worker/src/cvm_worker/execution.py:795-799 | When no id is analysed twice, a dropped candidate is in no later shortlist. |
| Sorting.StableSortIsUnique | services/temporal-worker/src/cvm_worker/execution.py:1247-1253 | A list is the result of the stable sort if and only if it is sorted and keeps every class of equal keys in order. |
| Sorting.SortAppend | services/temporal-worker/src/cvm_worker/execution.py:1246-1253 | Sorting a concatenation is the stable merge of the sorted parts. |
| Sorting.SortedStringsCanonical | services/platform-api/src/cvm_platform/application/agent_runs.py:149-158 | Sorting gives two term lists one image exactly when they are equal as multisets. |
| Sorting.StringLeqMeaning | services/temporal-worker/src/cvm_worker/execution.py:1247-1253 | One string comes before another exactly when it is a prefix of it or smaller at the first difference. |
| RunConfig.NormalizeAgentRunConfig | services/platform-api/src/cvm_platform/application/agent_runs.py:323-356 | Accepts exactly the configurations in range; the schedule is cut or padded with its last size to length `maxRounds`, all sizes positive. |
| RunConfig.AcceptableMeaning | services/platform-api/src/cvm_platform/application/agent_runs.py:338-348 | The accepted ranges in numbers: three to five rounds, no fewer than the operator's minimum, a positive shortlist size, and positive fetch sizes, at least one. |
| RunConfig.PaddedMeaning | services/platform-api/src/cvm_platform/application/agent_runs.py:349-351 | Normalising keeps every size it has room for in its round, otherwise only repeats the last one, introduces no new size, and doing it again changes nothing. |
| RunConfig.EffectiveMinRounds | services/temporal-worker/src/cvm_worker/execution.py:319-323 | For a normalised configuration the minimum lies between 3 and `maxRounds`, and is the setting itself when that fits. |
| Paging.BuildSearchRequest | services/temporal-worker/src/cvm_worker/execution.py:1118-1135 | The page of the requested size that contains the offset, 1-based, with the signature under which the offset is stored. |
| Paging.TilesIffAligned | services/temporal-worker/src/cvm_worker/execution.py:1118-1135 | On a long enough list the fetched positions are 0, 1, 2, ... without gap or repetition if and only if every size divides the sum of the sizes before it. |
| Paging.AlignedRequestsTile | services/temporal-worker/src/cvm_worker/execution.py:1118-1135 | Aligned requests fetch exactly the front of the list until the first short page, which completes it. |
| Paging.ShortPageCompletes | services/temporal-worker/src/cvm_worker/execution.py:1118-1135 | Once some page of aligned requests came back short, the whole list has been fetched in order, whatever is requested afterwards. |
| Paging.MixedSizesSkipAPosition | services/temporal-worker/src/cvm_worker/execution.py:1118-1135 | Sizes 10, 7, 5 skip position 14, so the condition is needed. |
| Paging.PaddingKeepsDivision | services/platform-api/src/cvm_platform/application/agent_runs.py:349-351 | Normalising a schedule keeps the property that each size divides every earlier one. |
| Paging.OffsetsPerSignature | services/temporal-worker/src/cvm_worker/execution.py:621-627 | However signatures interleave, the table holds for each what its own requests fetched. |
| Paging.EverySignatureTiles | services/temporal-worker/src/cvm_worker/execution.py:621-627 | For sizes that divide every earlier one, every signature's requests tile its list up to its first short page, and from then on have fetched all of it. |
| Paging.DivisionIsExact | services/temporal-worker/src/cvm_worker/execution.py:1118-1135 | The requests of every signature are aligned, however the rounds share signatures, if and only if each size of the schedule divides every earlier one. |
| ResumeSource.SearchCandidates | services/platform-api/src/cvm_platform/infrastructure/adapters.py:876-958 | Refuses non-positive pages and sizes; otherwise serves, in corpus order and each once, exactly the entries whose lower-cased text has some lower-cased must- or should-term as a slice (all entries without terms), cut to the requested page. |
| ResumeSource.KeepsUnique | services/platform-api/src/cvm_platform/infrastructure/adapters.py:895-917 | The filtered list is, entry by entry, the candidates at the kept places of the corpus; there is only one such choice of places. |
| ResumeSource.SignatureSoundness | services/platform-api/src/cvm_platform/infrastructure/adapters.py:895-919 | Normalised strategies with one signature get one list, so sharing an offset between them is correct. |
| Query.BuiltInNormalForm | services/platform-api/src/cvm_platform/application/agent_runs.py:293-320 | A strategy is built exactly when keyword, some must-term or some should-term is not blank, and is then in normal form; otherwise the error is AGENT_SEARCH_STRATEGY_INVALID. |
| Query.OnceIsFixedPoint | services/platform-api/src/cvm_platform/application/agent_runs.py:293-320 | One normalisation is a fixed point if and only if some must-term is not blank or the resolved keyword is not among the should-terms. |
| Query.TwiceIsFixedPoint | services/platform-api/src/cvm_platform/application/agent_runs.py:293-320 | Two normalisations always reach a fixed point. |
| Query.BuiltContents | services/platform-api/src/cvm_platform/application/agent_runs.py:302-320 | What a built strategy holds: job description and filters as given, the stripped terms that are not blank, should-terms only if they are no must-terms, the stripped keyword or else the joined terms, and the keyword as must-term for want of any. |
| Query.StripTermsMeaning | services/platform-api/src/cvm_platform/application/agent_runs.py:302-307 | Stripping a list works term by term, in order, and drops the blank ones. |
| Text.StripIsMiddle | services/platform-api/src/cvm_platform/application/agent_runs.py:302-307 | Stripping removes white space at the two ends and nothing else. |
| Text.StripNormal | services/platform-api/src/cvm_platform/application/agent_runs.py:302-307 | Stripping yields a stripped string and changes exactly those that are not. |
| Text.JoinMeaning | services/platform-api/src/cvm_platform/application/agent_runs.py:308 | Joining puts one separator between neighbours and nothing else. |
| Query.OnceIsNotEnough | services/platform-api/src/cvm_platform/application/agent_runs.py:293-320 | A concrete query for which one normalisation is not enough. |
| Query.SignatureMeaning | services/platform-api/src/cvm_platform/application/agent_runs.py:149-158 | Equal signatures mean equal keyword, terms as multisets up to case and outer white space, and equal filters, in both directions. |
| Query.BuildQueryDelta | services/platform-api/src/cvm_platform/application/agent_runs.py:171-196 | The loop over filter keys computes exactly the changed filters, the term differences both ways, and the removed filter keys in the order of the filters. |
| Query.RemovedExactly | services/platform-api/src/cvm_platform/application/agent_runs.py:193-195 | The removed filter keys are exactly the fields that lose their value. |
| Query.DeltaRoundTrip | services/platform-api/src/cvm_platform/application/agent_runs.py:171-196 | Applying the delta of two queries to the first yields the second's keyword, exact filters and term sets, and each term list with multiplicity when neither version repeats a term. |
| Query.DeltaContents | services/platform-api/src/cvm_platform/application/agent_runs.py:171-196 | The new keyword if it changed, the terms one side has and the other lacks, the value before and after of each changed filter, and the filters removed. |
| Query.DeltaSwap | services/platform-api/src/cvm_platform/application/agent_runs.py:171-196 | Swapping the queries swaps what was added and removed. |
| Query.EmptyDelta | services/platform-api/src/cvm_platform/application/agent_runs.py:171-196 | A delta is empty exactly when keyword, filters and the three term sets are unchanged. |
| Query.EmptyDeltaSameSignature | services/platform-api/src/cvm_platform/application/agent_runs.py:149-196 | With an empty delta and one query free of repeated terms, the signatures are equal if and only if the other query repeats no term either. |
| Query.RepetitionDecides | services/platform-api/src/cvm_platform/application/agent_runs.py:149-196 | Among queries without repeated terms an empty delta against a query implies its signature if and only if that query repeats no term. |
| Query.OnlyTermlessDecide | services/platform-api/src/cvm_platform/application/agent_runs.py:149-196 | Among all queries it does so if and only if the query has no term at all, which no normalised strategy is. |
| Query.RepeatedTermChangesSignature | services/platform-api/src/cvm_platform/application/agent_runs.py:149-196 | With a repeated term it does not: a concrete pair. |
| RunLog.CompactStepPayload | services/temporal-worker/src/cvm_worker/models.py:474-555 | The loop computes the compact payload of a step type, dropping analysis entries that are not objects. |
| RunLog.CopySelectedKeys | services/temporal-worker/src/cvm_worker/models.py:574-581 | Copies the selected keys that are present, in the order asked for. |
| RunLog.CopyLookup | services/temporal-worker/src/cvm_worker/models.py:574-581 | A key survives copying exactly when it was selected. |
| RunLog.CompactionKeeps | services/temporal-worker/src/cvm_worker/models.py:474-555 | For each step type, exactly these keys of the payload are kept with their values. |
| RunLog.CompactEntryKeeps | services/temporal-worker/src/cvm_worker/models.py:558-571 | And exactly these keys of an analysis entry. |
| RunLog.CompactEntriesAppend | services/temporal-worker/src/cvm_worker/models.py:509-519 | Entries are compacted one by one, in order, and those that are no objects are dropped. |
| RunLog.CompactIdempotent | services/temporal-worker/src/cvm_worker/models.py:323-327 | Compacting twice equals compacting once if and only if the step is no analysis step with an `analyses` value that is not a list. |
| RunLog.CompactTwiceDiffers | services/temporal-worker/src/cvm_worker/models.py:509-519 | A concrete step for which compacting twice differs from compacting once. |
| Ledger.BuildCompactRoundLedger | services/platform-api/src/cvm_platform/application/agent_runs.py:229-290 | The loop that updates entries by round builds the ledger: rounds ascending, each with the last step of each kind. |
| Ledger.SortedRounds | services/platform-api/src/cvm_platform/application/agent_runs.py:276 | The rounds of a ledger in ascending order, each once. |
| Ledger.LedgerUnique | services/platform-api/src/cvm_platform/application/agent_runs.py:229-290 | A log has exactly one ledger. |
| Ledger.LastStepMeaning | services/platform-api/src/cvm_platform/application/agent_runs.py:229-290 | Of several steps of one kind in one round the last one speaks. |
| Ledger.StrategyMeaning | services/platform-api/src/cvm_platform/application/agent_runs.py:230-233 | The extraction is that of the first strategy step outside any round. |
| Ledger.AnalysisPreserved | services/temporal-worker/src/cvm_worker/models.py:509-519 | An analysis step reads the same after compaction, up to the kept keys, exactly when its entries are objects. |
| Ledger.CompactionPreservesLedger | services/platform-api/src/cvm_platform/application/agent_runs.py:229-290 | The ledger of the compacted log is the ledger of the full log with only the analysis entries projected, if and only if the entries it reads are objects. |
| JsonText.LoadsPrinted | services/temporal-worker/src/cvm_worker/agents.py:373-376 | Reading a printed JSON value gives back that value. |
| JsonText.StringRoundTrip | services/temporal-worker/src/cvm_worker/agents.py:93-117 | Escaping and reading a string is the identity on every string. |
| JsonText.EscapeMeaning | services/temporal-worker/src/cvm_worker/agents.py:93-117 | The escapes of section 7 of RFC 8259: which characters are escaped, and how. |
| JsonText.LoadsWhole | services/temporal-worker/src/cvm_worker/agents.py:373-376 | A printed value followed by anything but blanks is refused. |
| JsonText.ReadEscapeMeaning | services/temporal-worker/src/cvm_worker/agents.py:373-376 | Which escapes are read, and as what; raw control characters and unknown escapes are refused. |
| JsonText.PutMeaning | services/temporal-worker/src/cvm_worker/agents.py:373-376 | A repeated key keeps its place and gets the later value. |
| Prompt.LatestUserPromptText | services/temporal-worker/src/cvm_worker/agents.py:383-389 | Finds the last user prompt of the latest message that has one, and nothing exactly when none has. |
| Prompt.ExtractInputPayload | services/temporal-worker/src/cvm_worker/agents.py:368-380 | Reads what the last user prompt carries after its last marker; refuses for want of a prompt exactly when the history has none. |
| Prompt.ExtractMeaning | services/temporal-worker/src/cvm_worker/agents.py:368-380 | Refused for want of a marker exactly when there is none; otherwise decided by what follows the last marker: no JSON, no object, or that object. |
| Prompt.LastMarkerIsReal | services/temporal-worker/src/cvm_worker/agents.py:370-376 | Printed JSON has no line break after a colon, so the last marker in a prompt is the builder's. |
| Prompt.PromptRoundTrip | services/temporal-worker/src/cvm_worker/agents.py:368-380 | A prompt starts with its instructions and the marker, and any printable payload after any instructions is read back exactly. |
| Prompt.StrategyPromptRoundTrip | services/temporal-worker/src/cvm_worker/agents.py:93-117 | For any job description, preference text and prompt version, also with markers, quotes and line breaks inside, the strategy payload is read back exactly. |
| UnitOfWork.Table.PendingModel | services/platform-api/src/cvm_platform/infrastructure/sqlalchemy_uow.py:48-52 | Finds the pending model of an id, or none exactly when there is none. |
| UnitOfWork.Table.SaveRecord | services/platform-api/src/cvm_platform/infrastructure/sqlalchemy_uow.py:55-67 | Whatever the id's state (pending, persistent, new), a save is one map update of what will be committed. |
| UnitOfWork.Table.FindByUnique | services/platform-api/src/cvm_platform/infrastructure/sqlalchemy_uow.py:143-166 | A query sees committed rows only, with attributes set in the session, and never pending ones. |
| UnitOfWork.Table.Commit | services/platform-api/src/cvm_platform/infrastructure/sqlalchemy_uow.py:247-251 | Commits exactly when the uniqueness constraint holds of the result, otherwise nothing is stored. |
| UnitOfWork.Table.Rollback | services/platform-api/src/cvm_platform/infrastructure/sqlalchemy_uow.py:250-251 | A rollback drops everything unsaved and keeps the table. |
| UnitOfWork.CommitTogether | services/platform-api/src/cvm_platform/infrastructure/sqlalchemy_uow.py:247-251 | Two tables are committed together or neither is. |
| UnitOfWork.SaveThenCommit | services/platform-api/src/cvm_platform/infrastructure/sqlalchemy_uow.py:48-67 | Any sequence of saves followed by a commit leaves the fold of one map update per save. |
| UnitOfWork.LastSaveWins | services/platform-api/src/cvm_platform/infrastructure/sqlalchemy_uow.py:55-67 | Each row is the last save of its id, or the old row if it was not saved. |
| UnitOfWork.SaveAllAgain | services/platform-api/src/cvm_platform/infrastructure/sqlalchemy_uow.py:55-67 | Repeating a batch of saves changes nothing and adds no row. |
| UnitOfWork.SavesUniqueIff | services/platform-api/src/cvm_platform/infrastructure/models.py:76-97 | For rows consistent with the table the constraint holds afterwards exactly when one unique value has one id. |
| CandidatePersistence.UpsertCaseCandidate | services/temporal-worker/src/cvm_worker/activities.py:268-302 | The stored row of the case and external id with the new profile and the old verdict, or a new row. |
| CandidatePersistence.UpsertResumeSnapshot | services/temporal-worker/src/cvm_worker/activities.py:305-324 | The stored snapshot of that content if there is one, otherwise exactly one new one. |
| CandidatePersistence.PersistCandidateSnapshots | services/temporal-worker/src/cvm_worker/activities.py:165-197 | Either everything is committed and one reference per candidate is returned, or nothing is stored. |
| CandidatePersistence.CommitsIff | services/temporal-worker/src/cvm_worker/activities.py:165-197 | A request commits if and only if no two of its positions ask for the same new row. |
| CandidatePersistence.SavesKeepUnique | services/temporal-worker/src/cvm_worker/activities.py:268-324 | A save never changes the constrained columns of a stored row. |
| CandidatePersistence.DedupedRequestCommits | services/temporal-worker/src/cvm_worker/execution.py:665-713 | What deduplication admits from a page is always a request with distinct external ids, so it commits, both constraints hold, and there is one reference per admitted candidate. |
| CandidatePersistence.RefsNameStoredRows | services/temporal-worker/src/cvm_worker/activities.py:165-197 | After a request with distinct external ids both constraints hold and each reference names the stored candidate whose latest snapshot is the returned one. |
| CandidatePersistence.StoredContent | services/temporal-worker/src/cvm_worker/activities.py:268-324 | The stored row has every column of the profile as given and the verdict it had before or none; a new snapshot holds the projection, an old one is left alone. |
| CandidatePersistence.RetryChangesNothing | services/temporal-worker/src/cvm_worker/activities.py:165-197 | Running the request again returns the same references and leaves both tables as they are. |
| CandidatePersistence.RepeatedNewCandidateFails | services/temporal-worker/src/cvm_worker/activities.py:165-197 | A new candidate listed twice makes the whole request fail. |
| CandidatePersistence.PersistResumeAnalyses | services/temporal-worker/src/cvm_worker/activities.py:200-229 | Each analysis that is the last of its snapshot, model and prompt version is stored under the id derived from these three, and no row under another id changes. |
| CandidatePersistence.AnalysesRetryChangesNothing | services/temporal-worker/src/cvm_worker/activities.py:200-229 | Repeating an analysis request adds no row and changes none. |

## Left out

- Float rounding: scores are reals, and `round(score, 4)` in payloads and in the stored shortlist is not modelled.
- JsonText.LoadsPrinted: numbers with a fraction or exponent are not printed; strings hold code points without lone surrogates.
- Timestamps, random ids and the wording of titles and summaries: ids are supplied by the caller, formatted summaries are empty.
- `strategy_signature` as JSON text: a signature is a tuple of its parts; `str.lower` and the content hash are arbitrary functions.
- The JSON form of queries and deltas inside step payloads: arbitrary functions, passed to the run as its `Encoding`.
- Resume projections are opaque text; evidence and concerns of a match are not carried into the run.
- Trace facts, token usage, upstream request and response payloads, prompt text and model settings inside payloads.
- Trace identifiers in patches: the publication activity stores its own, as modelled; no other patch sets them.
- At-least-once delivery of a run patch: appending steps is not idempotent, so a patch takes effect once or not at all.
- The race between a failed dispatch in the API and a worker already running; cancellation of a workflow.
- The candidate tables beside a run: within `Execution` the activities may answer anything; their effect on the tables is `CandidatePersistence.PersistCandidateSnapshots` and `PersistResumeAnalyses`.
- Execution.AgentRun.PublishTraceQuietly: the replay of the log into the trace exporter is not modelled, only what it stores and that it may fail.
- Concurrent matches of one round: when several of them fail, which failure comes first is part of the round's answer.
- UnitOfWork.Table.Commit: updates of stored rows are checked together, not one by one on the way; the saves modelled here never change a constrained column (`CandidatePersistence.SavesKeepUnique`).
- The identity map of a session beyond pending and modified rows, and queries over tables the candidate activities do not touch.
- Heuristic scoring, keyword extraction and structured filter drafting: table lookups and clamps.
- Case, plan, verdict and export services, routes, settings, the HTTP resume source, user interface and generated clients.
