/** The round ledger shown to the search reflector, built from a step log. */
module Ledger {
  import opened Wrappers
  import opened Json
  import opened RunLog
  import opened Sorting

  datatype SearchEntry = SearchEntry(query: Value, returnedCount: Value)
  datatype DedupeEntry = DedupeEntry(admittedCount: nat, duplicateCount: nat, duplicateResumeIds: seq<Value>)
  datatype AnalysisEntry = AnalysisEntry(analyzedCount: nat, analyses: seq<Value>)
  datatype ShortlistEntry = ShortlistEntry(retainedCount: Value, retainedCandidates: Value)
  datatype ReflectionEntry = ReflectionEntry(
    reason: Value, continueSearch: Value, nextRoundGoal: Value, queryDelta: Value)
  datatype StopEntry = StopEntry(reason: Value, summary: string)

  datatype RoundEntry = RoundEntry(
    roundNo: int, search: Option<SearchEntry>, dedupe: Option<DedupeEntry>, analysis: Option<AnalysisEntry>,
    shortlist: Option<ShortlistEntry>, reflection: Option<ReflectionEntry>, stop: Option<StopEntry>)

  datatype Extraction = Extraction(
    mustRequirements: Value, coreRequirements: Value, bonusRequirements: Value, excludeSignals: Value,
    round1Query: Value)

  datatype RoundLedger = RoundLedger(extraction: Option<Extraction>, rounds: seq<RoundEntry>)

  function PayloadList(v: Value): seq<Value> {
    if v.Arr? then v.items else []
  }

  function GetOrEmptyList(o: Object, key: string): Value {
    Lookup(o, key).GetOr(Arr([]))
  }

  function SearchOf(s: Step): SearchEntry {
    var query := Get(s.payload, "roundQuery");
    SearchEntry(if Truthy(query) then query else Get(s.payload, "normalizedQuery"),
                Lookup(s.payload, "returnedCount").GetOr(Int(0)))
  }

  function DedupeOf(s: Step): DedupeEntry {
    var duplicates := PayloadList(GetOrEmptyList(s.payload, "duplicateResumeIds"));
    DedupeEntry(|PayloadList(GetOrEmptyList(s.payload, "admittedResumeIds"))|, |duplicates|, duplicates)
  }

  function AnalysisOf(s: Step): AnalysisEntry {
    var analyses := PayloadList(GetOrEmptyList(s.payload, "analyses"));
    AnalysisEntry(|analyses|, analyses)
  }

  function ShortlistOf(s: Step): ShortlistEntry {
    ShortlistEntry(Get(s.payload, "retainedCount"), GetOrEmptyList(s.payload, "retainedCandidates"))
  }

  function ReflectionOf(s: Step): ReflectionEntry {
    ReflectionEntry(Get(s.payload, "reason"), Get(s.payload, "continueSearch"), Get(s.payload, "nextRoundGoal"),
                    Get(s.payload, "queryDelta"))
  }

  function StopOf(s: Step): StopEntry {
    StopEntry(Get(s.payload, "reason"), s.summary)
  }

  function ExtractionOf(s: Step): Extraction {
    Extraction(GetOrEmptyList(s.payload, "mustRequirements"), GetOrEmptyList(s.payload, "coreRequirements"),
               GetOrEmptyList(s.payload, "bonusRequirements"), GetOrEmptyList(s.payload, "excludeSignals"),
               Lookup(s.payload, "round1Query").GetOr(Obj([])))
  }

  function MapOption<T, U>(f: T -> U, o: Option<T>): Option<U> {
    if o.Some? then Some(f(o.value)) else None
  }

  // ---------------------------------------------------------------------------------------
  // What a ledger is: for each round that occurs, the last step of each type speaks
  // ---------------------------------------------------------------------------------------

  function LastStep(steps: seq<Step>, roundNo: int, stepType: StepType): Option<Step> {
    if steps == [] then None
    else
      var s := steps[|steps| - 1];
      if s.roundNo == Some(roundNo) && s.stepType == stepType then Some(s)
      else LastStep(steps[..|steps| - 1], roundNo, stepType)
  }

  /** The last step of that kind in that round, if there is one. */
  lemma {:induction false} LastStepMeaning(steps: seq<Step>, r: int, t: StepType, i: nat)
    requires i < |steps| && steps[i].roundNo == Some(r) && steps[i].stepType == t
    requires forall j :: i < j < |steps| ==> steps[j].roundNo != Some(r) || steps[j].stepType != t
    ensures LastStep(steps, r, t) == Some(steps[i])
  {
    var n := |steps| - 1;
    if i < n { LastStepMeaning(steps[..n], r, t, i); }
  }

  /** The first strategy step outside any round. */
  lemma {:induction false} StrategyMeaning(steps: seq<Step>, i: nat)
    requires i < |steps| && steps[i].stepType == StrategyStep && steps[i].roundNo == None
    requires forall j :: 0 <= j < i ==> steps[j].stepType != StrategyStep || steps[j].roundNo != None
    ensures StrategyOf(steps) == Some(steps[i])
  {
    if i > 0 { StrategyMeaning(steps[1..], i - 1); }
  }

  function EntryOf(steps: seq<Step>, r: int): RoundEntry {
    RoundEntry(r,
      MapOption(SearchOf, LastStep(steps, r, SearchStep)),
      MapOption(DedupeOf, LastStep(steps, r, DedupeStep)),
      MapOption(AnalysisOf, LastStep(steps, r, AnalysisStep)),
      MapOption(ShortlistOf, LastStep(steps, r, ShortlistStep)),
      MapOption(ReflectionOf, LastStep(steps, r, ReflectionStep)),
      MapOption(StopOf, LastStep(steps, r, StopStep)))
  }

  /** The first strategy step outside any round. */
  function StrategyOf(steps: seq<Step>): Option<Step> {
    if steps == [] then None
    else if steps[0].stepType == StrategyStep && steps[0].roundNo == None then Some(steps[0])
    else StrategyOf(steps[1..])
  }

  ghost predicate Occurs(steps: seq<Step>, r: int) {
    exists i :: 0 <= i < |steps| && steps[i].roundNo == Some(r)
  }

  function RoundNos(rounds: seq<RoundEntry>): (r: seq<int>)
    ensures |r| == |rounds| && forall i :: 0 <= i < |rounds| ==> r[i] == rounds[i].roundNo
  {
    seq(|rounds|, i requires 0 <= i < |rounds| => rounds[i].roundNo)
  }

  ghost predicate IsLedger(steps: seq<Step>, ledger: RoundLedger) {
    && ledger.extraction == MapOption(ExtractionOf, StrategyOf(steps))
    && Ascending(RoundNos(ledger.rounds))
    && (forall r :: r in RoundNos(ledger.rounds) <==> Occurs(steps, r))
    && (forall i :: 0 <= i < |ledger.rounds| ==> ledger.rounds[i] == EntryOf(steps, ledger.rounds[i].roundNo))
  }

  /** A log has one ledger. */
  lemma {:induction false} LedgerUnique(steps: seq<Step>, a: RoundLedger, b: RoundLedger)
    requires IsLedger(steps, a) && IsLedger(steps, b)
    ensures a == b
  {
    AscendingUnique(RoundNos(a.rounds), RoundNos(b.rounds));
    forall i | 0 <= i < |a.rounds| ensures a.rounds[i] == b.rounds[i] {
      assert RoundNos(a.rounds)[i] == RoundNos(b.rounds)[i];
    }
  }

  // ---------------------------------------------------------------------------------------
  // Building it
  // ---------------------------------------------------------------------------------------

  /** What one step writes into the entry of its round. */
  function Recorded(entry: RoundEntry, s: Step): RoundEntry {
    match s.stepType
    case SearchStep => entry.(search := Some(SearchOf(s)))
    case DedupeStep => entry.(dedupe := Some(DedupeOf(s)))
    case AnalysisStep => entry.(analysis := Some(AnalysisOf(s)))
    case ShortlistStep => entry.(shortlist := Some(ShortlistOf(s)))
    case ReflectionStep => entry.(reflection := Some(ReflectionOf(s)))
    case StopStep => entry.(stop := Some(StopOf(s)))
    case _ => entry
  }

  const EMPTY_ENTRY := RoundEntry(0, None, None, None, None, None, None)

  method BuildCompactRoundLedger(steps: seq<Step>) returns (ledger: RoundLedger)
    ensures IsLedger(steps, ledger)
  {
    var extraction := MapOption(ExtractionOf, StrategyOf(steps));
    var byRound: map<int, RoundEntry> := map[];
    var i := 0;
    while i < |steps|
      invariant 0 <= i <= |steps|
      invariant forall r :: r in byRound <==> Occurs(steps[..i], r)
      invariant forall r :: r in byRound ==> byRound[r] == EntryOf(steps[..i], r)
    {
      var s := steps[i];
      OneMoreStep(steps[..i], s);
      assert steps[..i + 1] == steps[..i] + [s];
      if s.roundNo.Some? {
        var r := s.roundNo.value;
        var entry := if r in byRound then byRound[r] else EMPTY_ENTRY.(roundNo := r);
        assert entry == EntryOf(steps[..i], r) by { if r !in byRound { NoEntry(steps[..i], r); } }
        byRound := byRound[r := Recorded(entry, s)];
      }
      i := i + 1;
    }
    assert steps[..i] == steps;
    var order := SortedRounds(byRound.Keys);
    assert forall j :: 0 <= j < |order| ==> order[j] in order;
    var rounds := seq(|order|, j requires 0 <= j < |order| && order[j] in byRound => byRound[order[j]]);
    assert RoundNos(rounds) == order;
    ledger := RoundLedger(extraction, rounds);
  }

  lemma {:induction false} OneMoreStep(steps: seq<Step>, s: Step)
    ensures forall r :: Occurs(steps + [s], r) <==> Occurs(steps, r) || s.roundNo == Some(r)
    ensures forall r ::
      EntryOf(steps + [s], r) == if s.roundNo == Some(r) then Recorded(EntryOf(steps, r), s) else EntryOf(steps, r)
  {
    var more := steps + [s];
    assert more[..|more| - 1] == steps;
    forall r ensures Occurs(more, r) <==> Occurs(steps, r) || s.roundNo == Some(r) {
      if Occurs(steps, r) {
        var i :| 0 <= i < |steps| && steps[i].roundNo == Some(r);
        assert more[i].roundNo == Some(r);
      }
      assert more[|steps|] == s;
    }
  }

  lemma {:induction false} NoStep(steps: seq<Step>, r: int, t: StepType)
    requires !Occurs(steps, r)
    ensures LastStep(steps, r, t) == None
  {
    if steps != [] {
      var n := |steps| - 1;
      assert steps[n].roundNo != Some(r);
      assert forall i :: 0 <= i < n ==> steps[..n][i] == steps[i];
      NoStep(steps[..n], r, t);
    }
  }

  lemma {:induction false} NoEntry(steps: seq<Step>, r: int)
    requires !Occurs(steps, r)
    ensures EntryOf(steps, r) == EMPTY_ENTRY.(roundNo := r)
  {
    NoStep(steps, r, SearchStep);
    NoStep(steps, r, DedupeStep);
    NoStep(steps, r, AnalysisStep);
    NoStep(steps, r, ShortlistStep);
    NoStep(steps, r, ReflectionStep);
    NoStep(steps, r, StopStep);
  }

  method SortedRounds(keys: set<int>) returns (order: seq<int>)
    ensures Ascending(order) && forall r :: r in order <==> r in keys
  {
    order := [];
    var todo := keys;
    while todo != {}
      invariant todo <= keys && Ascending(order)
      invariant forall r :: r in order <==> r in keys && r !in todo
      invariant forall r, t :: r in order && t in todo ==> r < t
      decreases todo
    {
      SmallestExists(todo, Member(todo));
      var least :| least in todo && forall t :: t in todo ==> least <= t;
      assert forall i :: 0 <= i < |order| ==> order[i] in order;
      order := order + [least];
      todo := todo - {least};
    }
  }

  ghost function Member<T>(s: set<T>): (x: T)
    requires s != {}
    ensures x in s
  {
    var x :| x in s; x
  }

  lemma {:induction false} SmallestExists(s: set<int>, x: int)
    requires x in s
    ensures exists least :: least in s && forall t :: t in s ==> least <= t
    decreases s
  {
    if y :| y in s && y < x {
      SmallestExists(s - {x}, y);
      var least :| least in s - {x} && forall t :: t in s - {x} ==> least <= t;
      forall t | t in s ensures least <= t { assert t == x || t in s - {x}; }
      assert least in s;
    }
  }

  // ---------------------------------------------------------------------------------------
  // Compaction preserves the ledger
  // ---------------------------------------------------------------------------------------

  function ProjectedEntry(v: Value): Value {
    if v.Obj? then Obj(CompactEntry(v.fields)) else v
  }

  function ProjectedAnalysis(a: AnalysisEntry): AnalysisEntry {
    AnalysisEntry(a.analyzedCount, seq(|a.analyses|, i requires 0 <= i < |a.analyses| => ProjectedEntry(a.analyses[i])))
  }

  /** The ledger with each analysis entry cut down to the keys the workflow keeps. */
  function Projected(ledger: RoundLedger): RoundLedger {
    RoundLedger(ledger.extraction,
      seq(|ledger.rounds|, i requires 0 <= i < |ledger.rounds| =>
        ledger.rounds[i].(analysis := MapOption(ProjectedAnalysis, ledger.rounds[i].analysis))))
  }

  /** The analysis entries of a step are JSON objects. */
  predicate ObjectEntries(s: Step) {
    forall v :: v in AnalysisOf(s).analyses ==> v.Obj?
  }

  lemma {:induction false} CompactEntriesMeaning(entries: seq<Value>)
    ensures |CompactEntries(entries)| <= |entries|
    ensures |CompactEntries(entries)| == |entries| <==> forall v :: v in entries ==> v.Obj?
    ensures (forall v :: v in entries ==> v.Obj?) ==>
      forall i :: 0 <= i < |entries| ==> CompactEntries(entries)[i] == ProjectedEntry(entries[i])
  {
    if entries != [] {
      CompactEntriesMeaning(entries[1..]);
      assert entries[0] in entries && forall v :: v in entries <==> v == entries[0] || v in entries[1..];
      if forall v :: v in entries ==> v.Obj? {
        assert CompactEntries(entries) == [ProjectedEntry(entries[0])] + CompactEntries(entries[1..]);
      }
    }
  }

  /** One analysis step reads the same after compaction exactly when its entries are objects. */
  lemma {:induction false} AnalysisPreserved(s: Step)
    requires s.stepType == AnalysisStep
    ensures AnalysisOf(Compact(s)) == ProjectedAnalysis(AnalysisOf(s)) <==> ObjectEntries(s)
  {
    var entries := AnalysisOf(s).analyses;
    CompactEntriesMeaning(entries);
    assert AnalysisOf(Compact(s)).analyses == CompactEntries(entries);
    if ObjectEntries(s) {
      assert CompactEntries(entries) == ProjectedAnalysis(AnalysisOf(s)).analyses;
    }
  }

  lemma {:induction false} StepPreserved(s: Step)
    ensures s.stepType == SearchStep ==> SearchOf(Compact(s)) == SearchOf(s)
    ensures s.stepType == DedupeStep ==> DedupeOf(Compact(s)) == DedupeOf(s)
    ensures s.stepType == ShortlistStep ==> ShortlistOf(Compact(s)) == ShortlistOf(s)
    ensures s.stepType == ReflectionStep ==> ReflectionOf(Compact(s)) == ReflectionOf(s)
    ensures s.stepType == StopStep ==> StopOf(Compact(s)) == StopOf(s)
    ensures s.stepType == StrategyStep ==> ExtractionOf(Compact(s)) == ExtractionOf(s)
  {
    hide CopySelected, Lookup;
    match s.stepType
    case SearchStep => KeptKey(s, 0); KeptKey(s, 1); KeptKey(s, 6);
    case DedupeStep => KeptKey(s, 0); KeptKey(s, 1);
    case ShortlistStep => KeptKey(s, 0); KeptKey(s, 1);
    case ReflectionStep => KeptKey(s, 0); KeptKey(s, 1); KeptKey(s, 2); KeptKey(s, 4);
    case StopStep => KeptKey(s, 0);
    case StrategyStep => KeptKey(s, 0); KeptKey(s, 1); KeptKey(s, 2); KeptKey(s, 3); KeptKey(s, 4);
    case _ =>
  }

  lemma {:induction false} KeptKey(s: Step, i: nat)
    requires s.stepType != AnalysisStep && i < |KeptKeys(s.stepType)|
    ensures var key := KeptKeys(s.stepType)[i]; Lookup(Compact(s).payload, key) == Lookup(s.payload, key)
  {
    hide KeptKeys;
    CopyLookup(s.payload, KeptKeys(s.stepType), KeptKeys(s.stepType)[i]);
  }

  lemma {:induction false} LastCompacted(steps: seq<Step>, r: int, t: StepType)
    ensures LastStep(CompactAll(steps), r, t) == MapOption(Compact, LastStep(steps, r, t))
    ensures LastStep(steps, r, t).Some? ==>
        LastStep(steps, r, t).value.stepType == t && LastStep(steps, r, t).value in steps
  {
    hide CompactPayload;
    if steps != [] {
      var n := |steps| - 1;
      LastCompacted(steps[..n], r, t);
      assert CompactAll(steps)[..n] == CompactAll(steps[..n]);
    }
  }

  lemma {:induction false} StrategyCompacted(steps: seq<Step>)
    ensures MapOption(ExtractionOf, StrategyOf(CompactAll(steps))) == MapOption(ExtractionOf, StrategyOf(steps))
  {
    if steps != [] {
      StrategyCompacted(steps[1..]);
      StepPreserved(steps[0]);
      assert CompactAll(steps)[1..] == CompactAll(steps[1..]);
    }
  }

  /** The analysis steps a ledger reads all hold objects. */
  ghost predicate LedgerEntriesAreObjects(steps: seq<Step>) {
    forall r :: LastStep(steps, r, AnalysisStep).Some? ==> ObjectEntries(LastStep(steps, r, AnalysisStep).value)
  }

  lemma {:induction false} EntryCompacted(steps: seq<Step>, r: int)
    ensures var full, small := EntryOf(steps, r), EntryOf(CompactAll(steps), r);
      && small.(analysis := None) == full.(analysis := None)
      && (small.analysis == MapOption(ProjectedAnalysis, full.analysis) <==>
            (LastStep(steps, r, AnalysisStep).Some? ==> ObjectEntries(LastStep(steps, r, AnalysisStep).value)))
  {
    LastCompacted(steps, r, SearchStep);
    LastCompacted(steps, r, DedupeStep);
    LastCompacted(steps, r, AnalysisStep);
    LastCompacted(steps, r, ShortlistStep);
    LastCompacted(steps, r, ReflectionStep);
    LastCompacted(steps, r, StopStep);
    SameOf(steps, r, SearchStep);
    SameOf(steps, r, DedupeStep);
    SameOf(steps, r, ShortlistStep);
    SameOf(steps, r, ReflectionStep);
    SameOf(steps, r, StopStep);
    if LastStep(steps, r, AnalysisStep).Some? { AnalysisPreserved(LastStep(steps, r, AnalysisStep).value); }
  }

  lemma {:induction false} SameOf(steps: seq<Step>, r: int, t: StepType)
    ensures LastStep(steps, r, t).Some? ==>
      var s := LastStep(steps, r, t).value;
      && s.stepType == t
      && (t == SearchStep ==> SearchOf(Compact(s)) == SearchOf(s))
      && (t == DedupeStep ==> DedupeOf(Compact(s)) == DedupeOf(s))
      && (t == ShortlistStep ==> ShortlistOf(Compact(s)) == ShortlistOf(s))
      && (t == ReflectionStep ==> ReflectionOf(Compact(s)) == ReflectionOf(s))
      && (t == StopStep ==> StopOf(Compact(s)) == StopOf(s))
  {
    LastCompacted(steps, r, t);
    if LastStep(steps, r, t).Some? { StepPreserved(LastStep(steps, r, t).value); }
  }

  lemma {:induction false} OccursCompacted(steps: seq<Step>, r: int)
    ensures Occurs(CompactAll(steps), r) <==> Occurs(steps, r)
  {
  }

  /** The ledger of a compacted log is the ledger of the full log with only the analysis entries
      projected, exactly when the analysis entries the ledger reads are objects. */
  lemma {:induction false} CompactionPreservesLedger(steps: seq<Step>, full: RoundLedger, small: RoundLedger)
    requires IsLedger(steps, full) && IsLedger(CompactAll(steps), small)
    ensures small == Projected(full) <==> LedgerEntriesAreObjects(steps)
  {
    StrategyCompacted(steps);
    forall r ensures r in RoundNos(small.rounds) <==> r in RoundNos(full.rounds) {
      OccursCompacted(steps, r);
    }
    AscendingUnique(RoundNos(small.rounds), RoundNos(full.rounds));
    var projected := Projected(full);
    forall i | 0 <= i < |full.rounds|
      ensures var r := full.rounds[i].roundNo;
        small.rounds[i] == projected.rounds[i] <==>
          (LastStep(steps, r, AnalysisStep).Some? ==> ObjectEntries(LastStep(steps, r, AnalysisStep).value))
    {
      var r := full.rounds[i].roundNo;
      assert RoundNos(small.rounds)[i] == RoundNos(full.rounds)[i] == r;
      EntryCompacted(steps, r);
      assert small.rounds[i] == EntryOf(CompactAll(steps), r) && full.rounds[i] == EntryOf(steps, r);
    }
    if small == projected {
      forall r | LastStep(steps, r, AnalysisStep).Some? ensures ObjectEntries(LastStep(steps, r, AnalysisStep).value) {
        if !Occurs(steps, r) { NoStep(steps, r, AnalysisStep); }
        var i :| 0 <= i < |full.rounds| && RoundNos(full.rounds)[i] == r;
        assert small.rounds[i] == projected.rounds[i];
      }
    }
    if LedgerEntriesAreObjects(steps) {
      assert small.rounds == projected.rounds;
    }
  }
}
