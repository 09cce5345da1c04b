/** The persisted run: it changes only through patches, one committed state after another. */
module RunRecord {
  import opened Wrappers
  import opened Json
  import opened RunLog
  import opened LogGrammar
  import opened Shortlist
  import opened RunConfig
  import Ledger

  datatype Status = Queued | Running | Completed | Failed

  datatype Run = Run(
    caseId: string, jdText: string, preferenceText: string, promptVersion: string, config: Config,
    status: Status, currentRound: nat, steps: seq<Step>, finalShortlist: seq<Shortlisted>, seenResumeIds: seq<string>,
    errorCode: Option<string>, errorMessage: Option<string>, finished: bool)

  /** A field that is `None` was not set; `errorCode: Some(None)` sets it to null. */
  datatype Patch = Patch(
    status: Option<Status>, currentRound: Option<nat>, appendSteps: seq<Step>, finalShortlist: Option<seq<Shortlisted>>,
    seenResumeIds: Option<seq<string>>, errorCode: Option<Option<string>>, errorMessage: Option<Option<string>>,
    clearError: bool, markFinished: bool)

  const EMPTY_PATCH := Patch(None, None, [], None, None, None, None, false, false)

  datatype Audit =
    | AuditCompleted(rounds: nat, shortlistCount: nat)
    | AuditFailed(code: Option<string>, message: Option<string>)

  /** The specification of a patch. */
  function Patched(r: Run, p: Patch): Run {
    r.(status := p.status.GetOr(r.status),
       currentRound := p.currentRound.GetOr(r.currentRound),
       steps := r.steps + p.appendSteps,
       finalShortlist := p.finalShortlist.GetOr(r.finalShortlist),
       seenResumeIds := p.seenResumeIds.GetOr(r.seenResumeIds),
       errorCode := p.errorCode.GetOr(if p.clearError then None else r.errorCode),
       errorMessage := p.errorMessage.GetOr(if p.clearError then None else r.errorMessage),
       finished := r.finished || p.markFinished)
  }

  /** Only a transition into a terminal status is audited. */
  function AuditsOf(before: Status, after: Run): seq<Audit> {
    if before == after.status then []
    else if after.status == Completed then [AuditCompleted(after.currentRound, |after.finalShortlist|)]
    else if after.status == Failed then [AuditFailed(after.errorCode, after.errorMessage)]
    else []
  }

  /** What the workflow is given of a record. */
  function Snapshot(r: Run): Run {
    r.(steps := CompactAll(r.steps))
  }

  class RunStore {
    const caseId: string
    const jdText: string
    const preferenceText: string
    const promptVersion: string
    const config: Config
    var status: Status
    var currentRound: nat
    var steps: seq<Step>
    var finalShortlist: seq<Shortlisted>
    var seenResumeIds: seq<string>
    var errorCode: Option<string>
    var errorMessage: Option<string>
    var finished: bool
    var traceId: Option<string>
    var traceUrl: Option<string>
    var auditLog: seq<Audit>
    /** Every state ever committed, oldest first; the last one is the current record. */
    ghost var history: seq<Run>

    ghost function Value(): Run
      reads this
    {
      Run(caseId, jdText, preferenceText, promptVersion, config, status, currentRound, steps, finalShortlist,
          seenResumeIds, errorCode, errorMessage, finished)
    }

    constructor (caseId: string, jdText: string, preferenceText: string, promptVersion: string, config: Config)
      ensures Value() ==
        Run(caseId, jdText, preferenceText, promptVersion, config, Queued, 0, [], [], [], None, None, false)
      ensures auditLog == [] && history == [Value()]
    {
      this.caseId, this.jdText := caseId, jdText;
      this.preferenceText, this.promptVersion := preferenceText, promptVersion;
      this.config := config;
      status, currentRound, steps, finalShortlist, seenResumeIds := Queued, 0, [], [], [];
      errorCode, errorMessage, finished, traceId, traceUrl, auditLog := None, None, false, None, None, [];
      history := [Run(caseId, jdText, preferenceText, promptVersion, config, Queued, 0, [], [], [], None, None, false)];
    }

    method Load() returns (snapshot: Run)
      ensures snapshot == Snapshot(Value())
      ensures snapshot.(steps := []) == Value().(steps := []) && snapshot.steps == CompactAll(steps)
    {
      snapshot := Run(caseId, jdText, preferenceText, promptVersion, config, status, currentRound, CompactAll(steps),
                      finalShortlist, seenResumeIds, errorCode, errorMessage, finished);
    }

    /** Apply a patch field by field, audit a status transition, commit, and answer with a snapshot. */
    method ApplyPatch(p: Patch) returns (snapshot: Run)
      modifies this
      ensures Value() == Patched(old(Value()), p)
      ensures auditLog == old(auditLog) + AuditsOf(old(status), Value())
      ensures history == old(history) + [Value()] && traceId == old(traceId) && traceUrl == old(traceUrl)
      ensures snapshot == Snapshot(Value())
    {
      hide CompactAll, Patched;
      var previousStatus := status;
      AssignFields(p);
      if previousStatus != status {
        AuditStatusTransition();
      }
      history := history + [Value()];
      snapshot := Load();
    }

    /** Trace publication commits the trace it produced and nothing else of the run. */
    method RecordTrace(traceId: Option<string>, traceUrl: Option<string>)
      modifies `traceId, `traceUrl
      ensures this.traceId == traceId && this.traceUrl == traceUrl
    {
      this.traceId, this.traceUrl := traceId, traceUrl;
    }

    method AssignFields(p: Patch)
      modifies `status, `currentRound, `steps, `finalShortlist, `seenResumeIds, `errorCode, `errorMessage, `finished
      ensures Value() == Patched(old(Value()), p)
      ensures p.status.Some? ==> status == p.status.value
      ensures p.status.None? ==> status == old(status)
      ensures p.currentRound.Some? ==> currentRound == p.currentRound.value
      ensures p.currentRound.None? ==> currentRound == old(currentRound)
      ensures steps == old(steps) + p.appendSteps
      ensures p.finalShortlist.Some? ==> finalShortlist == p.finalShortlist.value
      ensures p.finalShortlist.None? ==> finalShortlist == old(finalShortlist)
      ensures p.seenResumeIds.Some? ==> seenResumeIds == p.seenResumeIds.value
      ensures p.seenResumeIds.None? ==> seenResumeIds == old(seenResumeIds)
      ensures p.errorCode.Some? ==> errorCode == p.errorCode.value
      ensures p.errorCode.None? ==> errorCode == if p.clearError then None else old(errorCode)
      ensures p.errorMessage.Some? ==> errorMessage == p.errorMessage.value
      ensures p.errorMessage.None? ==> errorMessage == if p.clearError then None else old(errorMessage)
      ensures finished <==> old(finished) || p.markFinished
    {
      if p.clearError {
        errorCode, errorMessage := None, None;
      }
      status := p.status.GetOr(status);
      currentRound := p.currentRound.GetOr(currentRound);
      steps := steps + p.appendSteps;
      finalShortlist := p.finalShortlist.GetOr(finalShortlist);
      seenResumeIds := p.seenResumeIds.GetOr(seenResumeIds);
      errorCode := p.errorCode.GetOr(errorCode);
      errorMessage := p.errorMessage.GetOr(errorMessage);
      finished := finished || p.markFinished;
    }

    method AuditStatusTransition()
      modifies this`auditLog
      ensures auditLog == old(auditLog) + (
        if status == Completed then [AuditCompleted(currentRound, |finalShortlist|)]
        else if status == Failed then [AuditFailed(errorCode, errorMessage)]
        else [])
    {
      if status == Completed {
        auditLog := auditLog + [AuditCompleted(currentRound, |finalShortlist|)];
      } else if status == Failed {
        auditLog := auditLog + [AuditFailed(errorCode, errorMessage)];
      }
    }
  }

  // ---------------------------------------------------------------------------------------
  // What every committed state satisfies
  // ---------------------------------------------------------------------------------------

  function Strings(ids: seq<string>): (r: seq<Value>)
    ensures |r| == |ids| && forall i :: 0 <= i < |ids| ==> r[i] == Str(ids[i])
  {
    seq(|ids|, i requires 0 <= i < |ids| => Str(ids[i]))
  }

  /** The ids the dedupe steps of a log say were admitted, in order. */
  function AdmittedIds(steps: seq<Step>): seq<Value> {
    if steps == [] then []
    else
      var s := steps[|steps| - 1];
      AdmittedIds(steps[..|steps| - 1]) +
        if s.stepType == DedupeStep then Ledger.PayloadList(Get(s.payload, "admittedResumeIds")) else []
  }

  ghost predicate ObjectAnalyses(steps: seq<Step>) {
    forall s :: s in steps && s.stepType == AnalysisStep ==> Ledger.ObjectEntries(s)
  }

  /** A log is never committed half way through the analysis/shortlist pair. */
  predicate Settled(p: Phase) {
    match p
    case Bad => false
    case Analysed(_) => false
    case Warned(before) => Settled(before)
    case _ => true
  }

  predicate Final(p: Phase) {
    p.Finalized? || (p.Warned? && p.before.Finalized?)
  }

  function Stage(r: Run): Phase {
    PhaseOf(Shapes(r.steps))
  }

  ghost predicate RecordOk(r: Run) {
    && Numbered(r.steps) && ObjectAnalyses(r.steps)
    && Settled(Stage(r)) && (r.status == Completed <==> Final(Stage(r)))
    && Distinct(r.seenResumeIds) && AdmittedIds(r.steps) == Strings(r.seenResumeIds)
    && (forall x :: x in r.finalShortlist ==> x.Id() in r.seenResumeIds)
  }

  predicate StatusMayFollow(before: Status, after: Status) {
    || before == after
    || (before == Queued && after == Running)
    || (before == Running && (after == Completed || after == Failed))
  }

  /** One committed state may follow another: the log and the seen ids only grow at the end. */
  ghost predicate MayFollow(before: Run, after: Run) {
    && before.steps <= after.steps && before.seenResumeIds <= after.seenResumeIds
    && StatusMayFollow(before.status, after.status)
    && before.currentRound <= after.currentRound
    && before.config == after.config && before.jdText == after.jdText
  }

  ghost predicate HistoryOk(history: seq<Run>) {
    && (forall i :: 0 <= i < |history| ==> RecordOk(history[i]))
    && (forall i :: 0 < i < |history| ==> MayFollow(history[i - 1], history[i]))
  }

  lemma {:induction false} HistoryAppend(history: seq<Run>, r: Run)
    requires HistoryOk(history) && RecordOk(r) && (history == [] || MayFollow(history[|history| - 1], r))
    ensures HistoryOk(history + [r])
  {
    hide RecordOk, MayFollow;
  }

  /** From any committed state to any later one the log and the seen ids grow only by appending. */
  lemma {:induction false} HistoryGrows(history: seq<Run>, i: nat, j: nat)
    requires HistoryOk(history) && i <= j < |history|
    ensures history[i].steps <= history[j].steps && history[i].seenResumeIds <= history[j].seenResumeIds
    ensures history[i].status == Completed || history[i].status == Failed ==> history[j].status == history[i].status
    ensures history[i].config == history[j].config
  {
    hide RecordOk;
    if i < j {
      HistoryGrows(history, i, j - 1);
      assert MayFollow(history[j - 1], history[j]);
    }
  }

  lemma {:induction false} AppendedStep(steps: seq<Step>, s: Step)
    ensures PhaseOf(Shapes(steps + [s])) == Next(PhaseOf(Shapes(steps)), ShapeOf(s))
    ensures Numbered(steps) && s.stepNo == |steps| + 1 ==> Numbered(steps + [s])
    ensures AdmittedIds(steps + [s]) == AdmittedIds(steps) +
      (if s.stepType == DedupeStep then Ledger.PayloadList(Get(s.payload, "admittedResumeIds")) else [])
    ensures ObjectAnalyses(steps) && (s.stepType == AnalysisStep ==> Ledger.ObjectEntries(s)) ==>
        ObjectAnalyses(steps + [s])
    ensures CompactAll(steps + [s]) == CompactAll(steps) + [Compact(s)]
  {
    assert (steps + [s])[..|steps|] == steps;
    assert Shapes(steps + [s]) == Shapes(steps) + [ShapeOf(s)];
    PhaseAppend(Shapes(steps), ShapeOf(s));
  }

  lemma {:induction false} EmptyRecordOk(r: Run)
    requires r.steps == [] && r.seenResumeIds == [] && r.finalShortlist == [] && r.status != Completed
    ensures RecordOk(r)
  {
  }

  /** What saving one step with a patch must respect for the record to stay in order. */
  ghost predicate Savable(r: Run, p: Patch, s: Shape, payload: Object) {
    var next := Next(Stage(r), s);
    && p.appendSteps == [] && s.stepType != AnalysisStep && Settled(next)
    && StatusMayFollow(r.status, p.status.GetOr(r.status)) && (p.status.GetOr(r.status) == Completed <==> Final(next))
    && r.currentRound <= p.currentRound.GetOr(r.currentRound)
    && SeenMatches(r, p, if s.stepType == DedupeStep then Ledger.PayloadList(Get(payload, "admittedResumeIds")) else [])
    && (forall x :: x in p.finalShortlist.GetOr(r.finalShortlist) ==> x.Id() in p.seenResumeIds.GetOr(r.seenResumeIds))
  }

  /** The seen ids after a patch are the old ones followed by those just admitted. */
  ghost predicate SeenMatches(r: Run, p: Patch, admitted: seq<Value>) {
    var seen := p.seenResumeIds.GetOr(r.seenResumeIds);
    && r.seenResumeIds <= seen && Distinct(seen)
    && admitted == Strings(seen[|r.seenResumeIds|..])
  }

  lemma {:induction false} SavedStepOk(r: Run, p: Patch, s: Step)
    requires RecordOk(r) && s.stepNo == |r.steps| + 1 && Savable(r, p, ShapeOf(s), s.payload)
    ensures var after := Patched(r, p.(appendSteps := [s]));
      RecordOk(after) && MayFollow(r, after) && Stage(after) == Next(Stage(r), ShapeOf(s))
  {
    hide Next, PhaseOf, Shapes, Numbered, AdmittedIds, ObjectAnalyses, Settled, Final, Ledger.PayloadList, Get;
    AppendedStep(r.steps, s);
    var seen := p.seenResumeIds.GetOr(r.seenResumeIds);
    assert Strings(seen) == Strings(r.seenResumeIds) + Strings(seen[|r.seenResumeIds|..]);
  }

  /** The analysis and shortlist steps of a round are saved by one patch. */
  lemma {:induction false} SavedPairOk(r: Run, p: Patch, a: Step, b: Step, round: nat)
    requires RecordOk(r) && a.stepNo == |r.steps| + 1 && b.stepNo == |r.steps| + 2
    requires Stage(r) == Deduped(round) && r.status == Running
    requires ShapeOf(a) == Shape(AnalysisStep, Some(round)) && ShapeOf(b) == Shape(ShortlistStep, Some(round))
    requires Ledger.ObjectEntries(a)
    requires p == EMPTY_PATCH.(finalShortlist := p.finalShortlist)
    requires forall x :: x in p.finalShortlist.GetOr(r.finalShortlist) ==> x.Id() in r.seenResumeIds
    ensures var after := Patched(r, p.(appendSteps := [a, b]));
      RecordOk(after) && MayFollow(r, after) && Stage(after) == Listed(round)
  {
    hide PhaseOf, Shapes, Numbered, AdmittedIds, ObjectAnalyses, Ledger.PayloadList, Get, Ledger.ObjectEntries;
    hide Distinct, Strings;
    AppendedStep(r.steps, a);
    AppendedStep(r.steps + [a], b);
    assert r.steps + [a, b] == r.steps + [a] + [b];
    assert AdmittedIds(r.steps) + [] + [] == AdmittedIds(r.steps);
  }

  /** A patch that adds no step and touches neither seen ids nor shortlist. */
  lemma {:induction false} PlainPatchOk(r: Run, p: Patch)
    requires RecordOk(r)
    requires p.appendSteps == [] && p.seenResumeIds == None && p.finalShortlist == None
    requires StatusMayFollow(r.status, p.status.GetOr(r.status)) && p.status != Some(Completed)
    requires r.currentRound <= p.currentRound.GetOr(r.currentRound)
    ensures var after := Patched(r, p); RecordOk(after) && MayFollow(r, after) && Stage(after) == Stage(r)
  {
    assert r.steps + [] == r.steps;
  }
}
