/** The append-only step log of an agent run and the compact form the workflow keeps of it. */
module RunLog {
  import opened Wrappers
  import opened Json

  datatype StepType =
    | StrategyStep | SearchStep | DedupeStep | AnalysisStep | ShortlistStep
    | ReflectionStep | StopStep | FinalizeStep | WarningStep | OtherStep(name: string)

  datatype Step = Step(
    stepNo: int, roundNo: Option<int>, stepType: StepType, title: string, status: string, summary: string,
    payload: Object)

  /** A step is numbered after the steps already in the log. */
  function NewStep(steps: seq<Step>, roundNo: Option<int>, stepType: StepType, title: string, status: string,
                   summary: string, payload: Object): Step {
    Step(|steps| + 1, roundNo, stepType, title, status, summary, payload)
  }

  ghost predicate Numbered(steps: seq<Step>) {
    forall i :: 0 <= i < |steps| ==> steps[i].stepNo == i + 1
  }

  // ---------------------------------------------------------------------------------------
  // Compaction
  // ---------------------------------------------------------------------------------------

  /** The selected keys that are present, in the order they were asked for. */
  function CopySelected(payload: Object, keys: seq<string>): Object {
    if keys == [] then []
    else
      var rest := CopySelected(payload, keys[1..]);
      var v := Lookup(payload, keys[0]);
      if v.Some? then [Field(keys[0], v.value)] + rest else rest
  }

  method CopySelectedKeys(payload: Object, keys: seq<string>) returns (compacted: Object)
    ensures compacted == CopySelected(payload, keys)
  {
    compacted := [];
    var i := 0;
    while i < |keys|
      invariant 0 <= i <= |keys|
      invariant compacted + CopySelected(payload, keys[i..]) == CopySelected(payload, keys)
    {
      assert keys[i..][1..] == keys[i + 1..];
      var v := Lookup(payload, keys[i]);
      if v.Some? {
        compacted := compacted + [Field(keys[i], v.value)];
      }
      i := i + 1;
    }
  }

  function KeptKeys(stepType: StepType): seq<string> {
    match stepType
    case StrategyStep => ["mustRequirements", "coreRequirements", "bonusRequirements", "excludeSignals", "round1Query",
                          "modelVersion", "thinkingEffort", "promptVersion", "executionConfig"]
    case SearchStep => ["roundQuery", "normalizedQuery", "pageNo", "pageSize", "offset", "total", "returnedCount",
                        "candidateIds", "errorCode", "errorMessage"]
    case DedupeStep => ["admittedResumeIds", "duplicateResumeIds", "seenResumeCount"]
    case ShortlistStep => ["retainedCount", "retainedCandidates", "analyzedCandidateIds", "analyzedCaseCandidateIds",
                           "retainedCandidateIds", "retainedCaseCandidateIds"]
    case ReflectionStep => ["continueSearch", "reason", "nextRoundGoal", "nextRoundQuery", "queryDelta",
                            "minimumRoundsOverrideApplied", "modelVersion", "thinkingEffort", "promptVersion",
                            "executionConfig"]
    case StopStep => ["reason", "source", "duplicateStrategy"]
    case FinalizeStep => ["finalShortlist", "stopReason", "executionConfig"]
    case WarningStep => ["warningCode", "terminalStatus", "errorMessage"]
    case AnalysisStep => []
    case OtherStep(_) => []
  }

  const ANALYSIS_ENTRY_KEYS := ["candidateId", "externalIdentityId", "name", "score", "reason", "evidence", "concerns",
                                "modelVersion", "thinkingEffort", "promptVersion"]

  function CompactEntry(entry: Object): Object {
    CopySelected(entry, ANALYSIS_ENTRY_KEYS)
  }

  /** Entries that are not objects are dropped. */
  function CompactEntries(entries: seq<Value>): seq<Value> {
    if entries == [] then []
    else if entries[0].Obj? then [Obj(CompactEntry(entries[0].fields))] + CompactEntries(entries[1..])
    else CompactEntries(entries[1..])
  }

  function CompactPayload(stepType: StepType, payload: Object): Object {
    if stepType == AnalysisStep then
      var analyses := Lookup(payload, "analyses").GetOr(Arr([]));
      if analyses.Arr? then [Field("analyses", Arr(CompactEntries(analyses.items)))] else []
    else CopySelected(payload, KeptKeys(stepType))
  }

  lemma {:induction false} EntryCompact(entry: Object)
    ensures CompactEntry(entry) == CopySelected(entry, ANALYSIS_ENTRY_KEYS)
  {
  }

  method CompactStepPayload(stepType: StepType, payload: Object) returns (compact: Object)
    ensures compact == CompactPayload(stepType, payload)
  {
    hide KeptKeys, CopySelected, CompactEntry;
    if stepType == AnalysisStep {
      compact := [];
      var analyses := Lookup(payload, "analyses").GetOr(Arr([]));
      if analyses.Arr? {
        var compactAnalyses: seq<Value> := [];
        var entries := analyses.items;
        var i := 0;
        while i < |entries|
          invariant 0 <= i <= |entries|
          invariant compactAnalyses + CompactEntries(entries[i..]) == CompactEntries(entries)
        {
          assert entries[i..][1..] == entries[i + 1..];
          if entries[i].Obj? {
            var entry := CopySelectedKeys(entries[i].fields, ANALYSIS_ENTRY_KEYS);
            EntryCompact(entries[i].fields);
            compactAnalyses := compactAnalyses + [Obj(entry)];
          }
          i := i + 1;
        }
        assert entries[i..] == [];
        assert compactAnalyses == CompactEntries(entries);
        compact := [Field("analyses", Arr(compactAnalyses))];
      }
    } else {
      compact := CopySelectedKeys(payload, KeptKeys(stepType));
    }
  }

  function Compact(step: Step): Step {
    step.(payload := CompactPayload(step.stepType, step.payload))
  }

  function CompactAll(steps: seq<Step>): (r: seq<Step>)
    ensures |r| == |steps| && forall i :: 0 <= i < |steps| ==> r[i] == Compact(steps[i])
  {
    seq(|steps|, i requires 0 <= i < |steps| => Compact(steps[i]))
  }

  lemma {:induction false} CopyLookup(payload: Object, keys: seq<string>, key: string)
    ensures Lookup(CopySelected(payload, keys), key) == if key in keys then Lookup(payload, key) else None
  {
    if keys != [] {
      CopyLookup(payload, keys[1..], key);
      var v := Lookup(payload, keys[0]);
      if v.Some? {
        LookupAppend([Field(keys[0], v.value)], CopySelected(payload, keys[1..]), key);
        assert [Field(keys[0], v.value)][1..] == [];
      }
    }
  }

  /** What the compact form of a step holds: these keys of the full payload and no others. */
  lemma {:induction false} CompactionKeeps(s: Step, key: string)
    requires s.stepType != AnalysisStep
    ensures var kept: set<string> := match s.stepType
        case StrategyStep =>
          {"mustRequirements", "coreRequirements", "bonusRequirements", "excludeSignals", "round1Query",
           "modelVersion", "thinkingEffort", "promptVersion", "executionConfig"}
        case SearchStep =>
          {"roundQuery", "normalizedQuery", "pageNo", "pageSize", "offset", "total", "returnedCount",
           "candidateIds", "errorCode", "errorMessage"}
        case DedupeStep => {"admittedResumeIds", "duplicateResumeIds", "seenResumeCount"}
        case ShortlistStep =>
          {"retainedCount", "retainedCandidates", "analyzedCandidateIds", "analyzedCaseCandidateIds",
           "retainedCandidateIds", "retainedCaseCandidateIds"}
        case ReflectionStep =>
          {"continueSearch", "reason", "nextRoundGoal", "nextRoundQuery", "queryDelta",
           "minimumRoundsOverrideApplied", "modelVersion", "thinkingEffort", "promptVersion", "executionConfig"}
        case StopStep => {"reason", "source", "duplicateStrategy"}
        case FinalizeStep => {"finalShortlist", "stopReason", "executionConfig"}
        case WarningStep => {"warningCode", "terminalStatus", "errorMessage"}
        case _ => {};
      Lookup(Compact(s).payload, key) == if key in kept then Lookup(s.payload, key) else None
  {
    hide CopySelected, Lookup;
    CopyLookup(s.payload, KeptKeys(s.stepType), key);
  }

  /** And of one entry of an analysis step. */
  lemma {:induction false} CompactEntryKeeps(entry: Object, key: string)
    ensures Lookup(CompactEntry(entry), key) ==
      if key in {"candidateId", "externalIdentityId", "name", "score", "reason", "evidence", "concerns",
                 "modelVersion", "thinkingEffort", "promptVersion"}
      then Lookup(entry, key) else None
  {
    hide CopySelected, Lookup;
    CopyLookup(entry, ANALYSIS_ENTRY_KEYS, key);
  }

  /** Copying the same keys again changes nothing, whatever else the copied payload held. */
  lemma {:induction false} CopyAgain(payload: Object, all: seq<string>, keys: seq<string>)
    requires forall k :: k in keys ==> k in all
    ensures CopySelected(CopySelected(payload, all), keys) == CopySelected(payload, keys)
  {
    if keys != [] {
      assert keys[0] in keys && forall k :: k in keys[1..] ==> k in keys;
      CopyAgain(payload, all, keys[1..]);
      CopyLookup(payload, all, keys[0]);
    }
  }

  /** Compacting a list of entries works entry by entry, in order, and drops what is no object. */
  lemma {:induction false} CompactEntriesAppend(a: seq<Value>, b: seq<Value>)
    ensures CompactEntries(a + b) == CompactEntries(a) + CompactEntries(b)
    ensures |a| == 1 ==> CompactEntries(a) == if a[0].Obj? then [Obj(CompactEntry(a[0].fields))] else []
  {
    hide CompactEntry;
    if a == [] {
      assert a + b == b;
    } else {
      assert (a + b)[1..] == a[1..] + b;
      CompactEntriesAppend(a[1..], b);
    }
  }

  lemma {:induction false} CompactEntriesAgain(entries: seq<Value>)
    ensures CompactEntries(CompactEntries(entries)) == CompactEntries(entries)
  {
    if entries != [] {
      CompactEntriesAgain(entries[1..]);
      if entries[0].Obj? {
        CopyAgain(entries[0].fields, ANALYSIS_ENTRY_KEYS, ANALYSIS_ENTRY_KEYS);
        assert CompactEntries(entries)[1..] == CompactEntries(entries[1..]);
      }
    }
  }

  /** Compacting a compacted step changes nothing, except for an analysis step whose `analyses` is
      present but not a list: the key is dropped first and restored as an empty list then. */
  lemma {:induction false} CompactIdempotent(step: Step)
    ensures Compact(Compact(step)) == Compact(step) <==>
            (step.stepType == AnalysisStep ==> Lookup(step.payload, "analyses").GetOr(Arr([])).Arr?)
  {
    hide CompactEntries;
    if step.stepType == AnalysisStep {
      var analyses := Lookup(step.payload, "analyses").GetOr(Arr([]));
      var once := Compact(step).payload;
      if analyses.Arr? {
        assert once == [Field("analyses", Arr(CompactEntries(analyses.items)))];
        assert Lookup(once, "analyses") == Some(Arr(CompactEntries(analyses.items)));
        CompactEntriesAgain(analyses.items);
      } else {
        assert once == [] && Lookup(once, "analyses") == None;
      }
    } else {
      CopyAgain(step.payload, KeptKeys(step.stepType), KeptKeys(step.stepType));
    }
  }

  /** Such a step: the first compaction drops the key, the second restores it as an empty list. */
  lemma {:induction false} CompactTwiceDiffers()
    ensures var s := Step(1, Some(1), AnalysisStep, "", "", "", [Field("analyses", Null)]);
      Compact(Compact(s)) != Compact(s)
  {
    CompactIdempotent(Step(1, Some(1), AnalysisStep, "", "", "", [Field("analyses", Null)]));
  }
}
