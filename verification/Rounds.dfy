/** The pure parts of a round: deduplication, stop rules, progress, and the payloads of its steps. */
module Rounds {
  import opened Wrappers
  import opened Json
  import opened Sorting
  import opened Shortlist
  import opened RunConfig
  import opened ResumeSource
  import JsonText
  import Ledger
  import RunRecord

  // ---------------------------------------------------------------------------------------
  // Deduplication
  // ---------------------------------------------------------------------------------------

  function ExternalIds(candidates: seq<Candidate>): (r: seq<string>)
    ensures |r| == |candidates| && forall i :: 0 <= i < |candidates| ==> r[i] == candidates[i].externalId
  {
    seq(|candidates|, i requires 0 <= i < |candidates| => candidates[i].externalId)
  }

  /** The candidates whose id is neither seen nor carried by an earlier candidate of the page. */
  function Admitted(seen: seq<string>, candidates: seq<Candidate>): seq<Candidate> {
    if candidates == [] then []
    else
      var before, last := candidates[..|candidates| - 1], candidates[|candidates| - 1];
      Admitted(seen, before) +
        if last.externalId in seen || last.externalId in ExternalIds(before) then [] else [last]
  }

  /** The ids of the other candidates, in page order. */
  function Duplicates(seen: seq<string>, candidates: seq<Candidate>): seq<string> {
    if candidates == [] then []
    else
      var before, last := candidates[..|candidates| - 1], candidates[|candidates| - 1];
      Duplicates(seen, before) +
        if last.externalId in seen || last.externalId in ExternalIds(before) then [last.externalId] else []
  }

  method DedupeCandidates(seen: seq<string>, candidates: seq<Candidate>)
    returns (admitted: seq<Candidate>, duplicateIds: seq<string>, orderedSeen: seq<string>)
    ensures admitted == Admitted(seen, candidates) && duplicateIds == Duplicates(seen, candidates)
    ensures orderedSeen == seen + ExternalIds(admitted)
  {
    var seenIds := set id | id in seen;
    var roundSeen: set<string> := {};
    admitted, duplicateIds, orderedSeen := [], [], seen;
    var i := 0;
    while i < |candidates|
      invariant 0 <= i <= |candidates|
      invariant admitted == Admitted(seen, candidates[..i]) && duplicateIds == Duplicates(seen, candidates[..i])
      invariant orderedSeen == seen + ExternalIds(admitted)
      invariant forall id :: id in seenIds || id in roundSeen <==> id in seen || id in ExternalIds(candidates[..i])
    {
      var candidate := candidates[i];
      assert candidates[..i + 1][..i] == candidates[..i];
      assert ExternalIds(candidates[..i + 1]) == ExternalIds(candidates[..i]) + [candidate.externalId];
      if candidate.externalId in seenIds || candidate.externalId in roundSeen {
        duplicateIds := duplicateIds + [candidate.externalId];
      } else {
        assert ExternalIds(admitted + [candidate]) == ExternalIds(admitted) + [candidate.externalId];
        admitted := admitted + [candidate];
        roundSeen := roundSeen + {candidate.externalId};
        seenIds := seenIds + {candidate.externalId};
        orderedSeen := orderedSeen + [candidate.externalId];
      }
      i := i + 1;
    }
    assert candidates[..i] == candidates;
  }

  lemma {:induction false} LastSplit(candidates: seq<Candidate>)
    requires candidates != []
    ensures var n := |candidates| - 1;
      && candidates == candidates[..n] + [candidates[n]]
      && ExternalIds(candidates) == ExternalIds(candidates[..n]) + [candidates[n].externalId]
  {
  }

  lemma {:induction false} DedupeLast(seen: seq<string>, candidates: seq<Candidate>)
    requires candidates != []
    ensures var n := |candidates| - 1;
      var before, last := candidates[..n], candidates[n];
      if last.externalId in seen || last.externalId in ExternalIds(before) then
        && Admitted(seen, candidates) == Admitted(seen, before)
        && Duplicates(seen, candidates) == Duplicates(seen, before) + [last.externalId]
      else
        && Admitted(seen, candidates) == Admitted(seen, before) + [last]
        && Duplicates(seen, candidates) == Duplicates(seen, before)
  {
  }

  /** Admitted and duplicate entries together account for every entry of the page. */
  lemma {:induction false} DedupeAccountsForAll(seen: seq<string>, candidates: seq<Candidate>)
    ensures multiset(ExternalIds(Admitted(seen, candidates))) + multiset(Duplicates(seen, candidates)) ==
            multiset(ExternalIds(candidates))
  {
    if candidates != [] {
      hide ExternalIds;
      var n := |candidates| - 1;
      var before, last := candidates[..n], candidates[n];
      DedupeAccountsForAll(seen, before);
      LastSplit(candidates);
      DedupeLast(seen, candidates);
      hide Admitted, Duplicates;
      var kept := Admitted(seen, before);
      LastSplit(kept + [last]);
      assert (kept + [last])[..|kept|] == kept;
    } else {
      assert ExternalIds([]) == [];
    }
  }

  /** Every id of the page is seen afterwards, only ids of the page are admitted, and no id that
      was seen before. */
  lemma {:induction false} AdmittedMembers(seen: seq<string>, candidates: seq<Candidate>)
    ensures var ids := ExternalIds(Admitted(seen, candidates));
      forall id :: id in ids <==> id in ExternalIds(candidates) && id !in seen
  {
    if candidates != [] {
      hide ExternalIds;
      var n := |candidates| - 1;
      var before, last := candidates[..n], candidates[n];
      AdmittedMembers(seen, before);
      LastSplit(candidates);
      var kept := Admitted(seen, before);
      LastSplit(kept + [last]);
      assert (kept + [last])[..|kept|] == kept && kept + [] == kept;
    } else {
      assert ExternalIds([]) == [];
    }
  }

  /** The candidate at place `i` is new: its id was not seen, and no earlier one of the page has it. */
  ghost predicate NewAt(seen: seq<string>, page: seq<Candidate>, i: nat)
    requires i < |page|
  {
    page[i].externalId !in seen && forall j :: 0 <= j < i ==> page[j].externalId != page[i].externalId
  }

  /** Deduplication splits the places of a page: what is new is admitted and the others are listed as
      duplicates, both in page order and each place once. */
  lemma {:induction false} DedupeSplitsPage(seen: seq<string>, page: seq<Candidate>)
    returns (kept: seq<nat>, others: seq<nat>)
    ensures Ascending(kept) && Ascending(others)
    ensures forall i: nat :: i in kept <==> i < |page| && NewAt(seen, page, i)
    ensures forall i: nat :: i in others <==> i < |page| && !NewAt(seen, page, i)
    ensures |Admitted(seen, page)| == |kept| && |Duplicates(seen, page)| == |others|
    ensures forall k :: 0 <= k < |kept| ==> kept[k] < |page| && Admitted(seen, page)[k] == page[kept[k]]
    ensures forall k :: 0 <= k < |others| ==>
      others[k] < |page| && Duplicates(seen, page)[k] == page[others[k]].externalId
  {
    hide Admitted, Duplicates, Ascending, NewAt;
    kept := AdmittedPlaces(seen, page);
    others := DuplicatePlaces(seen, page);
  }

  lemma {:induction false} AdmittedPlaces(seen: seq<string>, page: seq<Candidate>) returns (kept: seq<nat>)
    ensures Ascending(kept) && forall i: nat :: i in kept <==> i < |page| && NewAt(seen, page, i)
    ensures |Admitted(seen, page)| == |kept|
    ensures forall k :: 0 <= k < |kept| ==> kept[k] < |page| && Admitted(seen, page)[k] == page[kept[k]]
  {
    if page == [] {
      kept := [];
    } else {
      DedupeLast(seen, page);
      LastIsNew(seen, page);
      hide Admitted, Duplicates, ExternalIds, Ascending;
      var n := |page| - 1;
      kept := AdmittedPlaces(seen, page[..n]);
      forall i: nat | i < n ensures NewAt(seen, page, i) <==> NewAt(seen, page[..n], i) { NewInFront(seen, page, i); }
      hide NewAt;
      if NewAt(seen, page, n) {
        AscendingSnoc(kept, n);
        kept := kept + [n];
      }
    }
  }

  lemma {:induction false} DuplicatePlaces(seen: seq<string>, page: seq<Candidate>) returns (others: seq<nat>)
    ensures Ascending(others) && forall i: nat :: i in others <==> i < |page| && !NewAt(seen, page, i)
    ensures |Duplicates(seen, page)| == |others|
    ensures forall k :: 0 <= k < |others| ==>
      others[k] < |page| && Duplicates(seen, page)[k] == page[others[k]].externalId
  {
    if page == [] {
      others := [];
    } else {
      DedupeLast(seen, page);
      LastIsNew(seen, page);
      hide Admitted, Duplicates, ExternalIds, Ascending;
      var n := |page| - 1;
      others := DuplicatePlaces(seen, page[..n]);
      forall i: nat | i < n ensures NewAt(seen, page, i) <==> NewAt(seen, page[..n], i) { NewInFront(seen, page, i); }
      hide NewAt;
      if !NewAt(seen, page, n) {
        AscendingSnoc(others, n);
        others := others + [n];
      }
    }
  }

  lemma {:induction false} AscendingSnoc(places: seq<nat>, n: nat)
    requires Ascending(places) && forall i: nat :: i in places ==> i < n
    ensures Ascending(places + [n]) && forall i: nat :: i in places + [n] <==> i in places || i == n
  {
    assert forall k :: 0 <= k < |places| ==> places[k] in places;
  }

  lemma {:induction false} NewInFront(seen: seq<string>, page: seq<Candidate>, i: nat)
    requires i < |page| - 1
    ensures NewAt(seen, page, i) <==> NewAt(seen, page[..|page| - 1], i)
  {
  }

  lemma {:induction false} LastIsNew(seen: seq<string>, page: seq<Candidate>)
    requires page != []
    ensures var n := |page| - 1;
      NewAt(seen, page, n) <==> !(page[n].externalId in seen || page[n].externalId in ExternalIds(page[..n]))
  {
    var n := |page| - 1;
    var ids := ExternalIds(page[..n]);
    if page[n].externalId in ids {
      var j :| 0 <= j < n && ids[j] == page[n].externalId;
      assert page[j].externalId == page[n].externalId;
    }
    if j :| 0 <= j < n && page[j].externalId == page[n].externalId { assert ids[j] in ids; }
  }

  lemma {:induction false} DistinctSnoc(ids: seq<string>, id: string)
    ensures Distinct(ids + [id]) <==> Distinct(ids) && id !in ids
  {
    var more := ids + [id];
    if Distinct(more) {
      forall i, j | 0 <= i < j < |ids| ensures ids[i] != ids[j] { assert more[i] != more[j]; }
      forall i | 0 <= i < |ids| ensures ids[i] != id { assert more[i] != more[|ids|]; }
    }
  }

  /** Seen ids stay free of repetition. */
  lemma {:induction false} SeenStaysDistinct(seen: seq<string>, candidates: seq<Candidate>)
    requires Distinct(seen)
    ensures Distinct(seen + ExternalIds(Admitted(seen, candidates)))
  {
    if candidates != [] {
      hide ExternalIds, Distinct;
      var n := |candidates| - 1;
      var before, last := candidates[..n], candidates[n];
      SeenStaysDistinct(seen, before);
      AdmittedMembers(seen, before);
      var kept := Admitted(seen, before);
      LastSplit(kept + [last]);
      assert (kept + [last])[..|kept|] == kept && kept + [] == kept;
      assert seen + (ExternalIds(kept) + [last.externalId]) == seen + ExternalIds(kept) + [last.externalId];
      DistinctSnoc(seen + ExternalIds(kept), last.externalId);
    } else {
      assert ExternalIds([]) == [] && seen + [] == seen;
    }
  }

  // ---------------------------------------------------------------------------------------
  // Progress and stop rules
  // ---------------------------------------------------------------------------------------

  /** The shortlist ids after the rounds in `batches`. */
  function IdsAfter(batches: seq<seq<Shortlisted>>, k: int): seq<string> {
    Ids(Streamed(batches, k))
  }

  /** How many of the latest rounds in a row left the shortlist ids unchanged. */
  function NoProgressStreak(batches: seq<seq<Shortlisted>>, k: int): nat {
    if batches == [] then 0
    else
      var before := batches[..|batches| - 1];
      if IdsAfter(batches, k) == IdsAfter(before, k) then NoProgressStreak(before, k) + 1 else 0
  }

  lemma {:induction false} StreakMeaning(batches: seq<seq<Shortlisted>>, k: int)
    ensures var n, s := |batches|, NoProgressStreak(batches, k);
      && s <= n
      && (forall i :: n - s < i <= n ==> IdsAfter(batches[..i], k) == IdsAfter(batches[..i - 1], k))
      && (s < n ==> IdsAfter(batches[..n - s], k) != IdsAfter(batches[..n - s - 1], k))
  {
    hide IdsAfter;
    if batches != [] {
      var n := |batches|;
      var before := batches[..n - 1];
      StreakMeaning(before, k);
      assert forall i :: 0 <= i <= n - 1 ==> before[..i] == batches[..i];
      assert batches[..n] == batches;
    }
  }

  /** A round with nothing new to analyse leaves the shortlist as it is. */
  lemma {:induction false} EmptyRoundNoProgress(batches: seq<seq<Shortlisted>>, k: int)
    ensures Streamed(batches + [[]], k) == Streamed(batches, k)
  {
    var more := batches + [[]];
    assert more[..|batches|] == batches;
    StreamedIsBatch(more, k);
    StreamedIsBatch(batches, k);
    assert Flatten(more) == Flatten(batches) + [] == Flatten(batches);
  }

  const MAX_ROUNDS_REASON := "已达到配置的最大轮次，停止继续检索。"
  const NO_PROGRESS_REASON := "连续两轮没有新增价值，停止继续检索。"
  const DUPLICATE_STRATEGY_REASON := "下一轮查询与上一轮实质相同且没有新增价值，系统停止继续检索。"
  const NEXT_ROUND_GOAL := "继续执行直到达到最少轮次，再评估是否提前停止。"

  function OverrideNote(minRounds: int): string {
    "；未达到最少 " + JsonText.Print(Int(minRounds), 0) + " 轮，系统继续执行下一轮。"
  }

  function ShouldStopAfterRound(config: Config, minRounds: int, roundNo: int, noProgressRounds: int): (bool, string) {
    if roundNo >= config.maxRounds then (true, MAX_ROUNDS_REASON)
    else if roundNo >= minRounds && noProgressRounds >= 2 then (true, NO_PROGRESS_REASON)
    else (false, "")
  }

  // ---------------------------------------------------------------------------------------
  // Step payloads: the keys that compaction and the ledger read
  // ---------------------------------------------------------------------------------------

  function OptionJson(o: Option<string>): Value {
    if o.Some? then Str(o.value) else Null
  }

  function SearchPayload(roundQuery: Value, strategy: Value, page: SearchPage, offset: nat, trace: Value): Object {
    [Field("roundQuery", roundQuery), Field("normalizedQuery", strategy),
     Field("pageNo", Int(page.pageNo)), Field("pageSize", Int(page.pageSize)), Field("offset", Int(offset)),
     Field("total", Int(page.total)), Field("returnedCount", Int(|page.candidates|)),
     Field("candidateIds", Arr(RunRecord.Strings(ExternalIds(page.candidates)))),
     Field("errorCode", OptionJson(page.errorCode)), Field("errorMessage", OptionJson(page.errorMessage)),
     Field("trace", trace)]
  }

  function DedupePayload(admitted: seq<Candidate>, duplicateIds: seq<string>, seenCount: nat, trace: Value): Object {
    [Field("admittedResumeIds", Arr(RunRecord.Strings(ExternalIds(admitted)))),
     Field("duplicateResumeIds", Arr(RunRecord.Strings(duplicateIds))),
     Field("seenResumeCount", Int(seenCount)), Field("trace", trace)]
  }

  function AnalysisJson(x: Shortlisted, trace: Value): Value {
    Obj([Field("candidateId", Str(x.candidateId)), Field("externalIdentityId", Str(x.Id())),
         Field("name", Str(x.candidate.name)), Field("score", Real(x.score)), Field("reason", Str(x.reason)),
         Field("trace", trace)])
  }

  function AnalysisPayload(analyzed: seq<Shortlisted>, trace: Value): Object {
    [Field("analyses", Arr(seq(|analyzed|, i requires 0 <= i < |analyzed| => AnalysisJson(analyzed[i], trace)))),
     Field("trace", trace)]
  }

  function ShortlistJson(x: Shortlisted): Value {
    Obj([Field("candidateId", Str(x.candidateId)), Field("externalIdentityId", Str(x.Id())),
         Field("name", Str(x.candidate.name)), Field("title", Str(x.candidate.title)),
         Field("company", Str(x.candidate.company)), Field("location", Str(x.candidate.location)),
         Field("summary", Str(x.candidate.summary)), Field("reason", Str(x.reason)),
         Field("score", Real(x.score)), Field("sourceRound", Int(x.sourceRound))])
  }

  function ShortlistJsons(s: seq<Shortlisted>): Value {
    Arr(seq(|s|, i requires 0 <= i < |s| => ShortlistJson(s[i])))
  }

  function CaseIds(s: seq<Shortlisted>): (r: seq<Value>)
    ensures |r| == |s| && forall i :: 0 <= i < |s| ==> r[i] == Str(s[i].candidateId)
  {
    seq(|s|, i requires 0 <= i < |s| => Str(s[i].candidateId))
  }

  function ShortlistPayload(retained: seq<Shortlisted>, analyzed: seq<Shortlisted>, trace: Value): Object {
    [Field("retainedCount", Int(|retained|)), Field("retainedCandidates", ShortlistJsons(retained)),
     Field("analyzedCandidateIds", Arr(RunRecord.Strings(Ids(analyzed)))),
     Field("analyzedCaseCandidateIds", Arr(CaseIds(analyzed))),
     Field("retainedCandidateIds", Arr(RunRecord.Strings(Ids(retained)))),
     Field("retainedCaseCandidateIds", Arr(CaseIds(retained))), Field("trace", trace)]
  }

  function ReflectionPayload(continueSearch: bool, reason: string, goal: string, nextQuery: Value, delta: Value,
                             overridden: bool, trace: Value): Object {
    [Field("continueSearch", Bool(continueSearch)), Field("reason", Str(reason)), Field("nextRoundGoal", Str(goal)),
     Field("nextRoundQuery", nextQuery), Field("queryDelta", delta),
     Field("minimumRoundsOverrideApplied", Bool(overridden)), Field("trace", trace)]
  }

  function StopPayload(reason: string, source: string, duplicate: Option<Value>, trace: Value): Object {
    [Field("reason", Str(reason)), Field("source", Str(source))]
      + (if duplicate.Some? then [Field("duplicateStrategy", duplicate.value)] else [])
      + [Field("trace", trace)]
  }

  function FinalizePayload(retained: seq<Shortlisted>, stopReason: Option<string>, trace: Value): Object {
    [Field("finalShortlist", ShortlistJsons(retained)), Field("stopReason", OptionJson(stopReason)),
     Field("trace", trace)]
  }

  lemma {:induction false} DedupePayloadAdmitted(
      admitted: seq<Candidate>, duplicateIds: seq<string>, n: nat, trace: Value)
    ensures Ledger.PayloadList(Get(DedupePayload(admitted, duplicateIds, n, trace), "admittedResumeIds")) ==
            RunRecord.Strings(ExternalIds(admitted))
  {
  }

  lemma {:induction false} AnalysisPayloadObjects(analyzed: seq<Shortlisted>, trace: Value)
    ensures var entries := Ledger.PayloadList(Ledger.GetOrEmptyList(AnalysisPayload(analyzed, trace), "analyses"));
      |entries| == |analyzed| && forall v :: v in entries ==> v.Obj?
  {
  }

  lemma {:induction false} ShortlistPayloadRetained(
      retained: seq<Shortlisted>, analyzed: seq<Shortlisted>, trace: Value)
    ensures Get(ShortlistPayload(retained, analyzed, trace), "retainedCandidateIds") ==
        Arr(RunRecord.Strings(Ids(retained)))
  {
    var o, key := ShortlistPayload(retained, analyzed, trace), "retainedCandidateIds";
    assert o[1..][1..] == o[2..] && o[2..][1..] == o[3..] && o[3..][1..] == o[4..];
    assert |o[0].key| != |key| && |o[1].key| != |key| && o[2].key[0] != key[0] && o[3].key[0] != key[0];
    assert Json.Lookup(o[3..], key) == Json.Lookup(o[4..], key) == Some(o[4].value);
    assert Json.Lookup(o[1..], key) == Json.Lookup(o[2..], key) == Json.Lookup(o[3..], key);
    assert Json.Lookup(o, key) == Json.Lookup(o[1..], key);
  }
}
