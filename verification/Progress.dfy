/** What a run has achieved after some rounds: which pages it requested, which batches it analysed,
    and the conditions under which it may go on.
 */
module Progress {
  import opened Wrappers
  import opened Json
  import opened RunLog
  import opened Query
  import opened ResumeSource
  import opened Shortlist
  import opened Paging
  import opened LogGrammar
  import opened RunRecord
  import opened Rounds

  /** A search request that was answered, and the candidates that came back. */
  datatype Requested = Requested(
    query: SearchQuery, signature: Signature, pageNo: int, size: int, offset: nat, candidates: seq<Candidate>)
  {
    function Returned(): nat { |candidates| }
  }

  function OffsetOf(requests: seq<Requested>, s: Signature): nat {
    if requests == [] then 0
    else
      var n := |requests| - 1;
      OffsetOf(requests[..n], s) + if requests[n].signature == s then requests[n].Returned() else 0
  }

  function OffsetIn(offsets: map<Signature, nat>, s: Signature): nat {
    if s in offsets then offsets[s] else 0
  }

  /** A request asks for the page of its size that holds the first position not yet fetched for its
      signature. */
  ghost predicate AsksForNext(before: seq<Requested>, q: Requested, size: int) {
    && q.size == size && q.offset == OffsetOf(before, q.signature)
    && (q.pageNo - 1) * size <= q.offset < q.pageNo * size
  }

  ghost predicate PagesOk(requests: seq<Requested>, offsets: map<Signature, nat>, schedule: seq<int>) {
    && |requests| <= |schedule|
    && (forall i :: 0 <= i < |requests| ==> AsksForNext(requests[..i], requests[i], schedule[i]))
    && (forall s :: OffsetIn(offsets, s) == OffsetOf(requests, s))
  }

  lemma {:induction false} PagesAppend(
      requests: seq<Requested>, offsets: map<Signature, nat>, schedule: seq<int>, q: Requested)
    requires PagesOk(requests, offsets, schedule) && |requests| < |schedule|
    requires AsksForNext(requests, q, schedule[|requests|])
    ensures PagesOk(requests + [q], offsets[q.signature := q.offset + q.Returned()], schedule)
  {
    hide AsksForNext, OffsetOf;
    var more := requests + [q];
    assert more[..|requests|] == requests;
    forall i | 0 <= i < |more| ensures AsksForNext(more[..i], more[i], schedule[i]) {
      if i < |requests| { assert more[..i] == requests[..i]; }
    }
    OffsetAppend(requests, q);
    assert OffsetOf(requests, q.signature) == q.offset by { AsksMeaning(requests, q, schedule[|requests|]); }
    forall s ensures OffsetIn(offsets[q.signature := q.offset + q.Returned()], s) == OffsetOf(more, s) {
      assert OffsetIn(offsets, s) == OffsetOf(requests, s);
    }
  }

  lemma {:induction false} AsksMeaning(before: seq<Requested>, q: Requested, size: int)
    requires AsksForNext(before, q, size)
    ensures q.offset == OffsetOf(before, q.signature) && q.size == size
  {
  }

  lemma {:induction false} OffsetAppend(requests: seq<Requested>, q: Requested)
    ensures forall s ::
      OffsetOf(requests + [q], s) == OffsetOf(requests, s) + if q.signature == s then q.Returned() else 0
  {
  }

  // ---------------------------------------------------------------------------------------
  // Against a source with fixed result lists
  // ---------------------------------------------------------------------------------------

  function Fetches(requests: seq<Requested>): (r: seq<Fetch>)
    ensures |r| == |requests|
    ensures forall i :: 0 <= i < |requests| ==> r[i] == Fetch(requests[i].signature, requests[i].size)
  {
    seq(|requests|, i requires 0 <= i < |requests| => Fetch(requests[i].signature, requests[i].size))
  }

  /** Every page was the slice of its signature's result list that the page number names. */
  ghost predicate AnsweredFrom(lists: Signature -> seq<Candidate>, requests: seq<Requested>) {
    forall i :: 0 <= i < |requests| ==> RightPage(lists(requests[i].signature), requests[i])
  }

  predicate RightPage(items: seq<Candidate>, q: Requested) {
    q.pageNo >= 1 && q.size >= 1 && 0 <= (q.pageNo - 1) * q.size
    && q.candidates == Slice(items, (q.pageNo - 1) * q.size, q.size)
  }

  lemma {:induction false} StartOfPage(pageNo: int, size: int, offset: nat)
    requires size > 0 && (pageNo - 1) * size <= offset < pageNo * size
    ensures (pageNo - 1) * size == PageStart(offset, size)
  {
    PageBounds(offset, size);
    var d := pageNo - 1 - offset / size;
    assert d * size == (pageNo - 1) * size - offset / size * size;
    if d >= 1 { MulAtLeast(size, d); }
    assert -d * size == offset / size * size - (pageNo - 1) * size;
    if -d >= 1 { MulAtLeast(size, -d); }
    assert pageNo * size == (pageNo - 1) * size + size;
  }

  lemma {:induction false} AnswerIsPage(before: seq<Requested>, q: Requested, size: int, items: seq<Candidate>)
    requires size > 0 && AsksForNext(before, q, size) && RightPage(items, q)
    ensures q.candidates == PageAt(items, OffsetOf(before, q.signature), q.size)
  {
    hide Slice, OffsetOf;
    StartOfPage(q.pageNo, q.size, q.offset);
  }

  lemma {:induction false} OffsetsAgree(
      lists: Signature -> seq<Candidate>, requests: seq<Requested>, schedule: seq<int>, s: Signature)
    requires Positive(schedule) && |requests| <= |schedule|
    requires forall i :: 0 <= i < |requests| ==> AsksForNext(requests[..i], requests[i], schedule[i])
    requires AnsweredFrom(lists, requests)
    ensures forall i :: 0 <= i < |requests| ==> Fetches(requests)[i].size > 0
    ensures OffsetIn(OffsetsAfter(lists, Fetches(requests)), s) == OffsetOf(requests, s)
  {
    hide PageAt, AsksForNext, RightPage;
    forall i | 0 <= i < |requests| ensures Fetches(requests)[i].size > 0 {
      AsksMeaning(requests[..i], requests[i], schedule[i]);
    }
    if requests != [] {
      var n := |requests| - 1;
      var before, q := requests[..n], requests[n];
      forall i | 0 <= i < n ensures AsksForNext(before[..i], before[i], schedule[i]) {
        assert before[..i] == requests[..i];
      }
      OffsetsAgree(lists, before, schedule, s);
      OffsetsAgree(lists, before, schedule, q.signature);
      assert Fetches(requests)[..n] == Fetches(before);
      AnswerIsPage(before, q, schedule[n], lists(q.signature));
    }
  }

  /** When each fetch size divides every earlier one, the requests of a run against a source with
      fixed lists tile each list: until a signature's first short page the entries fetched for it are
      exactly the first `offsets[s]`, and from a short page on the whole list has been fetched. */
  lemma {:induction false} RequestsTile(
      lists: Signature -> seq<Candidate>, requests: seq<Requested>, offsets: map<Signature, nat>,
      schedule: seq<int>, s: Signature)
    requires Positive(schedule) && DividesEarlier(schedule)
    requires PagesOk(requests, offsets, schedule) && AnsweredFrom(lists, requests)
    ensures Positive(SizesOf(Fetches(requests), s))
    ensures |Fetched(lists(s), SizesOf(Fetches(requests), s))| == OffsetIn(offsets, s)
    ensures var items, sizes := lists(s), SizesOf(Fetches(requests), s);
      sizes != [] && (forall i :: 0 <= i < |sizes| - 1 ==> FullPage(items, sizes, i)) ==>
        && OffsetIn(offsets, s) <= |items|
        && Fetched(items, sizes) == items[..OffsetIn(offsets, s)]
        && (FullPage(items, sizes, |sizes| - 1) || OffsetIn(offsets, s) == |items|)
    ensures var items, sizes := lists(s), SizesOf(Fetches(requests), s);
      forall i: nat :: i < |sizes| && !FullPage(items, sizes, i) ==> items <= Fetched(items, sizes)
  {
    hide PageAt, FullPage, SizesOf, OffsetOf;
    var fetches := Fetches(requests);
    forall i | 0 <= i < |requests| ensures fetches[i].size == schedule[i] {
      AsksMeaning(requests[..i], requests[i], schedule[i]);
    }
    EverySignatureTiles(lists, fetches, s);
    OffsetsPerSignature(lists, fetches, s);
    OffsetsAgree(lists, requests, schedule, s);
    assert OffsetIn(offsets, s) == OffsetOf(requests, s);
  }

  /** The list the in-memory source holds for a signature, whichever normalised query has it. */
  ghost function ListFor(lower: string -> string, corpus: seq<CorpusEntry>, s: Signature): seq<Candidate> {
    if q :| NormalForm(q) && StrategySignature(lower, q) == s then Matching(lower, corpus, q) else []
  }

  /** Every page was served from the corpus entries its query asks for. */
  ghost predicate AnsweredByCorpus(lower: string -> string, corpus: seq<CorpusEntry>, requests: seq<Requested>) {
    forall i :: 0 <= i < |requests| ==> ServedPage(lower, corpus, requests[i])
  }

  ghost predicate ServedPage(lower: string -> string, corpus: seq<CorpusEntry>, q: Requested) {
    exists kept :: Keeps(lower, corpus, q.query, kept) && Serves(corpus, kept, q.pageNo, q.size, q.candidates)
  }

  lemma {:induction false} ServedIsRight(lower: string -> string, corpus: seq<CorpusEntry>, q: Requested)
    requires ServedPage(lower, corpus, q)
    ensures RightPage(Matching(lower, corpus, q.query), q)
  {
    hide Keeps, Matching, Slice;
    var kept :| Keeps(lower, corpus, q.query, kept) && Serves(corpus, kept, q.pageNo, q.size, q.candidates);
    ServesIffSlice(lower, corpus, q.query, kept, q.pageNo, q.size, q.candidates);
  }

  ghost predicate NormalQueries(lower: string -> string, requests: seq<Requested>) {
    forall i :: 0 <= i < |requests| ==>
      NormalForm(requests[i].query) && requests[i].signature == StrategySignature(lower, requests[i].query)
  }

  lemma {:induction false} ListForQuery(lower: string -> string, corpus: seq<CorpusEntry>, q: SearchQuery)
    requires NormalForm(q)
    ensures ListFor(lower, corpus, StrategySignature(lower, q)) == Matching(lower, corpus, q)
  {
    hide NormalForm, StrategySignature, Matching;
    var other :| NormalForm(other) && StrategySignature(lower, other) == StrategySignature(lower, q)
      && ListFor(lower, corpus, StrategySignature(lower, q)) == Matching(lower, corpus, other);
    SignatureSoundness(lower, corpus, other, q);
  }

  /** Against a corpus the result lists are fixed: one for each signature. */
  lemma {:induction false} CorpusHasLists(lower: string -> string, corpus: seq<CorpusEntry>, requests: seq<Requested>)
    requires AnsweredByCorpus(lower, corpus, requests) && NormalQueries(lower, requests)
    ensures AnsweredFrom(s => ListFor(lower, corpus, s), requests)
  {
    hide RightPage, ServedPage, ListFor, NormalForm, Matching, StrategySignature;
    forall i | 0 <= i < |requests| ensures RightPage(ListFor(lower, corpus, requests[i].signature), requests[i]) {
      ServedIsRight(lower, corpus, requests[i]);
      ListForQuery(lower, corpus, requests[i].query);
    }
  }

  // ---------------------------------------------------------------------------------------
  // From pages to seen ids
  // ---------------------------------------------------------------------------------------

  /** The seen ids that deduplicating the returned pages one after the other leaves. */
  function SeenAfter(requests: seq<Requested>): seq<string> {
    if requests == [] then []
    else
      var n := |requests| - 1;
      var seen := SeenAfter(requests[..n]);
      seen + ExternalIds(Admitted(seen, requests[n].candidates))
  }

  lemma {:induction false} SeenAppend(requests: seq<Requested>, q: Requested)
    ensures var seen := SeenAfter(requests);
      SeenAfter(requests + [q]) == seen + ExternalIds(Admitted(seen, q.candidates))
  {
    assert (requests + [q])[..|requests|] == requests;
  }

  lemma {:induction false} PageIsSeen(before: seq<Requested>, q: Requested)
    ensures forall id :: id in SeenAfter(before) ==> id in SeenAfter(before + [q])
    ensures forall c :: c in q.candidates ==> c.externalId in SeenAfter(before + [q])
  {
    hide Admitted, SeenAfter;
    var seen := SeenAfter(before);
    SeenAppend(before, q);
    AdmittedMembers(seen, q.candidates);
    forall c | c in q.candidates ensures c.externalId in SeenAfter(before + [q]) {
      var i :| 0 <= i < |q.candidates| && q.candidates[i] == c;
      assert ExternalIds(q.candidates)[i] == c.externalId;
    }
  }

  /** Everything fetched for a signature has been seen. */
  lemma {:induction false} FetchedAreSeen(
      lists: Signature -> seq<Candidate>, requests: seq<Requested>, schedule: seq<int>, s: Signature)
    requires Positive(schedule) && |requests| <= |schedule|
    requires forall i :: 0 <= i < |requests| ==> AsksForNext(requests[..i], requests[i], schedule[i])
    requires AnsweredFrom(lists, requests)
    ensures Positive(SizesOf(Fetches(requests), s))
    ensures forall c :: c in Fetched(lists(s), SizesOf(Fetches(requests), s)) ==> c.externalId in SeenAfter(requests)
  {
    hide PageAt, AsksForNext, RightPage, SeenAfter, OffsetOf;
    if requests == [] {
      assert SizesOf(Fetches(requests), s) == [];
    } else {
      var n := |requests| - 1;
      var before, q := requests[..n], requests[n];
      assert requests == before + [q];
      forall i | 0 <= i < n ensures AsksForNext(before[..i], before[i], schedule[i]) {
        assert before[..i] == requests[..i];
      }
      FetchedAreSeen(lists, before, schedule, s);
      hide SizesOf, Fetched;
      PageIsSeen(before, q);
      LastFetched(lists, before, q, schedule, s);
    }
  }

  /** The last request adds its own page to what was fetched for its signature, and nothing to what
      was fetched for any other. */
  lemma {:induction false} LastFetched(
      lists: Signature -> seq<Candidate>, before: seq<Requested>, q: Requested, schedule: seq<int>, s: Signature)
    requires Positive(schedule) && |before| < |schedule|
    requires forall i :: 0 <= i < |before| ==> AsksForNext(before[..i], before[i], schedule[i])
    requires AsksForNext(before, q, schedule[|before|]) && AnsweredFrom(lists, before)
    requires RightPage(lists(q.signature), q)
    ensures Positive(SizesOf(Fetches(before), s)) && Positive(SizesOf(Fetches(before + [q]), s))
    ensures var sizes, sizes' := SizesOf(Fetches(before), s), SizesOf(Fetches(before + [q]), s);
      Fetched(lists(s), sizes') == Fetched(lists(s), sizes) + if q.signature == s then q.candidates else []
  {
    hide PageAt, AsksForNext, RightPage;
    AsksMeaning(before, q, schedule[|before|]);
    OffsetsAgree(lists, before, schedule, s);
    OffsetsPerSignature(lists, Fetches(before), s);
    var fetches := Fetches(before + [q]);
    assert fetches[..|before|] == Fetches(before);
    var sizes := SizesOf(Fetches(before), s);
    if q.signature == s {
      AnswerIsPage(before, q, schedule[|before|], lists(s));
      assert (sizes + [q.size])[..|sizes|] == sizes;
    } else {
      assert sizes + [] == sizes;
    }
  }

  /** When each fetch size divides every earlier one, no entry below a signature's offset was passed
      over: all of them have been seen. */
  lemma {:induction false} BelowOffsetIsSeen(
      lists: Signature -> seq<Candidate>, requests: seq<Requested>, offsets: map<Signature, nat>,
      schedule: seq<int>, s: Signature, p: nat)
    requires Positive(schedule) && DividesEarlier(schedule)
    requires PagesOk(requests, offsets, schedule) && AnsweredFrom(lists, requests)
    requires p < OffsetIn(offsets, s) && p < |lists(s)|
    ensures lists(s)[p].externalId in SeenAfter(requests)
  {
    hide PageAt, FullPage, SizesOf, SeenAfter, AsksForNext, Fetched;
    RequestsTile(lists, requests, offsets, schedule, s);
    FetchedAreSeen(lists, requests, schedule, s);
    var items, sizes := lists(s), SizesOf(Fetches(requests), s);
    var fetched := Fetched(items, sizes);
    NothingFetched(items, sizes);
    if i: nat :| i < |sizes| && !FullPage(items, sizes, i) {
      assert items <= fetched;
    }
    assert fetched[p] == items[p];
  }

  lemma {:induction false} NothingFetched<T>(items: seq<T>, sizes: seq<int>)
    requires Positive(sizes)
    ensures sizes == [] ==> Fetched(items, sizes) == []
  {
  }

  // ---------------------------------------------------------------------------------------
  // Rounds
  // ---------------------------------------------------------------------------------------

  /** Rounds whose shortlist is recorded. */
  function ListedRounds(p: Phase): int {
    match p
    case Start => 0
    case Ready(n) => n
    case Searched(r) => r - 1
    case Deduped(r) => r - 1
    case Analysed(r) => r - 1
    case Listed(r) => r
    case Stopped(r) => r
    case Finalized(r) => r
    case Warned(before) => ListedRounds(before)
    case Bad => 0
  }

  /** Rounds whose page is deduplicated. */
  function DedupedRounds(p: Phase): int {
    match p
    case Start => 0
    case Ready(n) => n
    case Searched(r) => r - 1
    case Deduped(r) => r
    case Analysed(r) => r
    case Listed(r) => r
    case Stopped(r) => r
    case Finalized(r) => r
    case Warned(before) => DedupedRounds(before)
    case Bad => 0
  }

  /** What the shortlist steps of a log say was retained, in order. */
  function RetainedLog(steps: seq<Step>): seq<Value> {
    if steps == [] then []
    else
      var s := steps[|steps| - 1];
      RetainedLog(steps[..|steps| - 1]) +
        if s.stepType == ShortlistStep then [Get(s.payload, "retainedCandidateIds")] else []
  }

  lemma {:induction false} RetainedAppend(steps: seq<Step>, s: Step)
    ensures RetainedLog(steps + [s]) == RetainedLog(steps) +
      if s.stepType == ShortlistStep then [Get(s.payload, "retainedCandidateIds")] else []
  {
  }

  /** The ids that ranking everything analysed so far retains, after each of the rounds. */
  function RetainedAfterEach(batches: seq<seq<Shortlisted>>, k: int): seq<Value> {
    if batches == [] then []
    else RetainedAfterEach(batches[..|batches| - 1], k) + [Arr(Strings(Ids(TopK(Flatten(batches), k))))]
  }

  /** What one entry of an analysis step says, with the round it was analysed in. */
  datatype Told = Told(
    candidateId: Value, externalId: Value, name: Value, score: Value, reason: Value, roundNo: Option<int>)

  function TellEntry(v: Value, roundNo: Option<int>): Told {
    var o := if v.Obj? then v.fields else [];
    Told(Get(o, "candidateId"), Get(o, "externalIdentityId"), Get(o, "name"), Get(o, "score"), Get(o, "reason"),
         roundNo)
  }

  function TellEntries(entries: seq<Value>, roundNo: Option<int>): (r: seq<Told>)
    ensures |r| == |entries| && forall i :: 0 <= i < |entries| ==> r[i] == TellEntry(entries[i], roundNo)
  {
    seq(|entries|, i requires 0 <= i < |entries| => TellEntry(entries[i], roundNo))
  }

  /** What the analysis steps of a log say, step by step. */
  function AnalysisLog(steps: seq<Step>): seq<seq<Told>> {
    if steps == [] then []
    else
      var s := steps[|steps| - 1];
      AnalysisLog(steps[..|steps| - 1]) +
        if s.stepType == AnalysisStep then [TellEntries(Ledger.AnalysisOf(s).analyses, s.roundNo)] else []
  }

  lemma {:induction false} AnalysisLogAppend(steps: seq<Step>, s: Step)
    ensures AnalysisLog(steps + [s]) == AnalysisLog(steps) +
      if s.stepType == AnalysisStep then [TellEntries(Ledger.AnalysisOf(s).analyses, s.roundNo)] else []
  {
    assert (steps + [s])[..|steps|] == steps;
  }

  /** The same of an analysed candidate: everything its rank depends on, and what the reader is told. */
  function Telling(x: Shortlisted): Told {
    Told(Str(x.candidateId), Str(x.Id()), Str(x.candidate.name), Real(x.score), Str(x.reason), Some(x.sourceRound))
  }

  function TellBatch(batch: seq<Shortlisted>): (r: seq<Told>)
    ensures |r| == |batch| && forall i :: 0 <= i < |batch| ==> r[i] == Telling(batch[i])
  {
    seq(|batch|, i requires 0 <= i < |batch| => Telling(batch[i]))
  }

  function TellBatches(batches: seq<seq<Shortlisted>>): (r: seq<seq<Told>>)
    ensures |r| == |batches| && forall i :: 0 <= i < |batches| ==> r[i] == TellBatch(batches[i])
  {
    seq(|batches|, i requires 0 <= i < |batches| => TellBatch(batches[i]))
  }

  lemma {:induction false} AnalysisJsonTells(x: Shortlisted, trace: Value)
    ensures TellEntry(AnalysisJson(x, trace), Some(x.sourceRound)) == Telling(x)
  {
    var o := AnalysisJson(x, trace).fields;
    assert o[1..][1..] == o[2..] && o[2..][1..] == o[3..] && o[3..][1..] == o[4..];
    assert |o[1].key| == 18 && |o[0].key| == 11 && |o[2].key| == 4 && |o[3].key| == 5 && |o[4].key| == 6;
    assert Json.Lookup(o, "externalIdentityId") == Json.Lookup(o[1..], "externalIdentityId") == Some(o[1].value);
    assert Json.Lookup(o[2..], "name") == Some(o[2].value);
    assert Json.Lookup(o, "name") == Json.Lookup(o[1..], "name") == Json.Lookup(o[2..], "name");
    assert Json.Lookup(o[2..], "score") == Json.Lookup(o[3..], "score") == Some(o[3].value);
    assert Json.Lookup(o, "score") == Json.Lookup(o[1..], "score") == Json.Lookup(o[2..], "score");
    assert Json.Lookup(o[3..], "reason") == Json.Lookup(o[4..], "reason") == Some(o[4].value);
    assert Json.Lookup(o[1..], "reason") == Json.Lookup(o[2..], "reason") == Json.Lookup(o[3..], "reason");
    assert Json.Lookup(o, "reason") == Json.Lookup(o[1..], "reason");
  }

  /** The analysis step of a round tells exactly its batch. */
  lemma {:induction false} AnalysisStepTells(s: Step, analyzed: seq<Shortlisted>, trace: Value, roundNo: int)
    requires s.payload == AnalysisPayload(analyzed, trace) && s.roundNo == Some(roundNo)
    requires forall x :: x in analyzed ==> x.sourceRound == roundNo
    ensures TellEntries(Ledger.AnalysisOf(s).analyses, s.roundNo) == TellBatch(analyzed)
  {
    hide TellEntry, Telling, AnalysisJson;
    forall i | 0 <= i < |analyzed|
      ensures TellEntry(AnalysisJson(analyzed[i], trace), s.roundNo) == Telling(analyzed[i])
    {
      assert analyzed[i] in analyzed;
      AnalysisJsonTells(analyzed[i], trace);
    }
    var entries := Ledger.AnalysisOf(s).analyses;
    assert |entries| == |analyzed| && forall i :: 0 <= i < |analyzed| ==>
        entries[i] == AnalysisJson(analyzed[i], trace);
  }

  /** Compaction keeps what an entry tells. */
  lemma {:induction false} CompactedEntryTells(v: Value, roundNo: Option<int>)
    ensures TellEntry(Ledger.ProjectedEntry(v), roundNo) == TellEntry(v, roundNo)
  {
    if v.Obj? {
      hide CopySelected, Json.Lookup;
      var keys := ANALYSIS_ENTRY_KEYS;
      assert keys[0] == "candidateId" && keys[1] == "externalIdentityId" && keys[2] == "name" && keys[3] == "score"
          && keys[4] == "reason";
      CopyLookup(v.fields, keys, keys[0]);
      CopyLookup(v.fields, keys, keys[1]);
      CopyLookup(v.fields, keys, keys[2]);
      CopyLookup(v.fields, keys, keys[3]);
      CopyLookup(v.fields, keys, keys[4]);
    }
  }

  lemma {:induction false} CompactedStepTells(s: Step)
    requires s.stepType == AnalysisStep && Ledger.ObjectEntries(s)
    ensures TellEntries(Ledger.AnalysisOf(Compact(s)).analyses, s.roundNo) ==
            TellEntries(Ledger.AnalysisOf(s).analyses, s.roundNo)
  {
    Ledger.AnalysisPreserved(s);
    hide TellEntry, CompactPayload, Ledger.ProjectedEntry, Ledger.AnalysisOf;
    var entries, small := Ledger.AnalysisOf(s).analyses, Ledger.AnalysisOf(Compact(s)).analyses;
    forall i | 0 <= i < |entries| ensures TellEntry(small[i], s.roundNo) == TellEntry(entries[i], s.roundNo) {
      CompactedEntryTells(entries[i], s.roundNo);
    }
  }

  /** So the workflow's compacted view tells the same analyses as the full log. */
  lemma {:induction false} CompactedLogTells(steps: seq<Step>)
    requires ObjectAnalyses(steps)
    ensures AnalysisLog(CompactAll(steps)) == AnalysisLog(steps)
  {
    if steps != [] {
      hide TellEntries, CompactPayload, AnalysisLog, Ledger.ObjectEntries, Ledger.AnalysisOf;
      var n := |steps| - 1;
      var before, s := steps[..n], steps[n];
      assert steps == before + [s] && CompactAll(steps) == CompactAll(before) + [Compact(s)];
      CompactedLogTells(before);
      AnalysisLogAppend(before, s);
      AnalysisLogAppend(CompactAll(before), Compact(s));
      if s.stepType == AnalysisStep { CompactedStepTells(s); }
    }
  }

  /** A record tells the batches: one for each round whose shortlist step is in the log, their
      candidates are seen in the order they were analysed, each round's analysis step lists exactly its
      batch, and both the stored shortlist and each round's shortlist step are the batch ranking of
      everything analysed by then. */
  ghost predicate Kept(r: Run, batches: seq<seq<Shortlisted>>) {
    && |batches| == ListedRounds(Stage(r))
    && Ids(Flatten(batches)) <= r.seenResumeIds
    && r.finalShortlist == Streamed(batches, r.config.finalTopK)
    && RetainedLog(r.steps) == RetainedAfterEach(batches, r.config.finalTopK)
    && AnalysisLog(r.steps) == TellBatches(batches)
  }

  /** At this phase the seen ids are those of the pages deduplicated so far. */
  ghost predicate SeenAt(p: Phase, seen: seq<string>, requests: seq<Requested>) {
    0 <= DedupedRounds(p) <= |requests| && seen == SeenAfter(requests[..DedupedRounds(p)])
  }

  /** A committed record tells some first batches and pages of the run. */
  ghost predicate Tells(r: Run, batches: seq<seq<Shortlisted>>, requests: seq<Requested>) {
    && 0 <= ListedRounds(Stage(r)) <= |batches| && Kept(r, batches[..ListedRounds(Stage(r))])
    && SeenAt(Stage(r), r.seenResumeIds, requests)
  }

  ghost predicate HistoryTells(history: seq<Run>, batches: seq<seq<Shortlisted>>, requests: seq<Requested>) {
    forall i :: 0 <= i < |history| ==> Tells(history[i], batches, requests)
  }

  lemma {:induction false} TellsAppend(
      history: seq<Run>, batches: seq<seq<Shortlisted>>, requests: seq<Requested>, r: Run)
    requires HistoryTells(history, batches, requests)
    requires Kept(r, batches) && SeenAt(Stage(r), r.seenResumeIds, requests)
    ensures HistoryTells(history + [r], batches, requests)
  {
    hide Stage, SeenAt;
    assert batches[..|batches|] == batches;
    assert Tells(r, batches, requests) by {
      hide RetainedLog, RetainedAfterEach, Flatten, Streamed;
    }
    hide Tells, Kept;
  }

  /** What was told stays told when the run goes on. */
  lemma {:induction false} TellsMore(
      history: seq<Run>, batches: seq<seq<Shortlisted>>, requests: seq<Requested>,
      moreBatches: seq<seq<Shortlisted>>, moreRequests: seq<Requested>)
    requires HistoryTells(history, batches, requests) && batches <= moreBatches && requests <= moreRequests
    ensures HistoryTells(history, moreBatches, moreRequests)
  {
    hide Stage, Kept, SeenAfter, DedupedRounds, ListedRounds;
    forall i | 0 <= i < |history| ensures Tells(history[i], moreBatches, moreRequests) {
      var r := history[i];
      assert Tells(r, batches, requests);
      var l, m := ListedRounds(Stage(r)), DedupedRounds(Stage(r));
      assert moreBatches[..l] == batches[..l] && moreRequests[..m] == requests[..m];
    }
  }

  lemma {:induction false} SeenAtMore(p: Phase, seen: seq<string>, requests: seq<Requested>, q: Requested)
    requires SeenAt(p, seen, requests)
    ensures SeenAt(p, seen, requests + [q])
  {
    hide SeenAfter, DedupedRounds;
    assert (requests + [q])[..DedupedRounds(p)] == requests[..DedupedRounds(p)];
  }

  /** Only a dedupe step moves the seen ids. */
  lemma {:induction false} SeenAtNext(p: Phase, s: Shape, seen: seq<string>, requests: seq<Requested>)
    requires SeenAt(p, seen, requests) && s.stepType != DedupeStep && Next(p, s) != Bad
    ensures SeenAt(Next(p, s), seen, requests)
  {
    hide SeenAfter;
  }

  /** Nor do the analysis and shortlist steps. */
  lemma {:induction false} SeenAtPair(roundNo: nat, seen: seq<string>, requests: seq<Requested>)
    requires SeenAt(Deduped(roundNo), seen, requests)
    ensures SeenAt(Listed(roundNo), seen, requests)
  {
  }

  /** The dedupe step of a round adds what its page admits. */
  lemma {:induction false} SeenAtDedupe(roundNo: nat, seen: seq<string>, requests: seq<Requested>)
    requires SeenAt(Searched(roundNo), seen, requests) && |requests| == roundNo > 0
    ensures var page := requests[roundNo - 1].candidates;
      SeenAt(Deduped(roundNo), seen + ExternalIds(Admitted(seen, page)), requests)
  {
    hide Admitted;
    assert requests[..roundNo] == requests;
  }

  /** The next query may be searched although past rounds brought nothing new. */
  predicate Allowed(previous: Signature, next: Signature, noProgressRounds: nat) {
    noProgressRounds < 2 && (noProgressRounds == 1 ==> previous != next)
  }

  /** Past the minimum, no round was started after two rounds without progress, nor with an
      unchanged signature after one. */
  ghost predicate NoIdleRepeat(requests: seq<Requested>, batches: seq<seq<Shortlisted>>, minRounds: int, k: int) {
    && |batches| <= |requests| <= |batches| + 1
    && forall i :: 0 < i < |requests| && minRounds <= i ==>
         Allowed(requests[i - 1].signature, requests[i].signature, NoProgressStreak(batches[..i], k))
  }

  lemma {:induction false} RequestAppend(
      requests: seq<Requested>, batches: seq<seq<Shortlisted>>, minRounds: int, k: int, q: Requested)
    requires NoIdleRepeat(requests, batches, minRounds, k) && |requests| == |batches|
    requires requests != [] && minRounds <= |requests| ==>
      Allowed(requests[|requests| - 1].signature, q.signature, NoProgressStreak(batches, k))
    ensures NoIdleRepeat(requests + [q], batches, minRounds, k)
  {
    hide Allowed, NoProgressStreak;
    var more := requests + [q];
    assert batches[..|batches|] == batches;
    forall i | 0 < i < |more| && minRounds <= i
      ensures Allowed(more[i - 1].signature, more[i].signature, NoProgressStreak(batches[..i], k))
    {
      if i < |requests| {
        assert Allowed(requests[i - 1].signature, requests[i].signature, NoProgressStreak(batches[..i], k));
      }
    }
  }

  lemma {:induction false} BatchAppend(
      requests: seq<Requested>, batches: seq<seq<Shortlisted>>, minRounds: int, k: int, batch: seq<Shortlisted>)
    requires NoIdleRepeat(requests, batches, minRounds, k) && |requests| == |batches| + 1
    ensures NoIdleRepeat(requests, batches + [batch], minRounds, k)
  {
    hide Allowed, NoProgressStreak;
    var more := batches + [batch];
    forall i | 0 < i < |requests| && minRounds <= i
      ensures Allowed(requests[i - 1].signature, requests[i].signature, NoProgressStreak(more[..i], k))
    {
      assert more[..i] == batches[..i];
      assert Allowed(requests[i - 1].signature, requests[i].signature, NoProgressStreak(batches[..i], k));
    }
  }

  lemma {:induction false} StreamedAppend(batches: seq<seq<Shortlisted>>, batch: seq<Shortlisted>, k: int)
    ensures Streamed(batches + [batch], k) == TopK(Streamed(batches, k) + batch, k)
    ensures Ids(Flatten(batches + [batch])) == Ids(Flatten(batches)) + Ids(batch)
    ensures NoProgressStreak(batches + [batch], k) ==
      if Ids(Streamed(batches + [batch], k)) == Ids(Streamed(batches, k)) then NoProgressStreak(batches, k) + 1 else 0
  {
  }

  /** Saving one more step that is no shortlist step, with the shortlist as it was. */
  lemma {:induction false} KeptStep(before: Run, after: Run, s: Step, batches: seq<seq<Shortlisted>>)
    requires Kept(before, batches) && after.steps == before.steps + [s]
    requires s.stepType != ShortlistStep && s.stepType != AnalysisStep
    requires after.config == before.config && after.finalShortlist == before.finalShortlist
    requires before.seenResumeIds <= after.seenResumeIds
    requires Stage(after) == Next(Stage(before), ShapeOf(s)) && Stage(after) != Bad
    ensures Kept(after, batches)
  {
    hide PhaseOf, Shapes, RetainedLog, RetainedAfterEach, AnalysisLog, TellBatches, Flatten, Streamed;
    RetainedAppend(before.steps, s);
    AnalysisLogAppend(before.steps, s);
  }

  /** Saving the analysis and shortlist steps of a round together with its ranking. */
  lemma {:induction false} KeptPair(before: Run, after: Run, a: Step, b: Step, batches: seq<seq<Shortlisted>>,
                                    batch: seq<Shortlisted>)
    requires Kept(before, batches) && after.steps == before.steps + [a, b]
    requires a.stepType == AnalysisStep && b.stepType == ShortlistStep
    requires after.config == before.config && after.seenResumeIds == before.seenResumeIds
    requires var k := before.config.finalTopK;
      && after.finalShortlist == TopK(before.finalShortlist + batch, k)
      && Get(b.payload, "retainedCandidateIds") == Arr(Strings(Ids(after.finalShortlist)))
    requires TellEntries(Ledger.AnalysisOf(a).analyses, a.roundNo) == TellBatch(batch)
    requires Stage(before) == Deduped(|batches| + 1) && Stage(after) == Listed(|batches| + 1)
    requires Ids(Flatten(batches)) + Ids(batch) == after.seenResumeIds
    ensures Kept(after, batches + [batch])
  {
    hide PhaseOf, Shapes, RetainedLog, AnalysisLog, TellEntries, TellBatch, Flatten, Streamed, TopK;
    hide Ledger.AnalysisOf, Get;
    var k := before.config.finalTopK;
    StreamedAppend(batches, batch, k);
    StreamedIsBatch(batches + [batch], k);
    assert (batches + [batch])[..|batches|] == batches;
    RetainedAppend(before.steps, a);
    RetainedAppend(before.steps + [a], b);
    AnalysisLogAppend(before.steps, a);
    AnalysisLogAppend(before.steps + [a], b);
    assert before.steps + [a, b] == before.steps + [a] + [b];
  }

  /** Every shortlisted id is a seen id. */
  lemma {:induction false} StreamedAreSeen(batches: seq<seq<Shortlisted>>, k: int, seen: seq<string>)
    requires Ids(Flatten(batches)) <= seen
    ensures forall x :: x in Streamed(batches, k) ==> x.Id() in seen
  {
    hide TopK, Flatten;
    StreamedIsBatch(batches, k);
    TopKMeaning(Flatten(batches), k);
    forall x | x in Streamed(batches, k) ensures x.Id() in seen {
      IdMember(Flatten(batches), x.Id());
    }
  }
}
