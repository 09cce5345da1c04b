/** Persisting the candidates of a round and their analyses, safe to retry.

    `hash` stands for the content hash of a candidate and `analysisId` for the derived primary key
    of an analysis; nothing is assumed of either.  Fresh ids are supplied by the caller.
 */
module CandidatePersistence {
  import opened Wrappers
  import opened Shortlist
  import opened UnitOfWork
  import Rounds

  datatype Profile = Profile(
    name: string, title: string, company: string, location: string, summary: string, email: string, phone: string)

  datatype CaseCandidate = CaseCandidate(
    latestSnapshotId: Option<string>, latestVerdict: Option<string>, profile: Profile)

  /** A candidate row is unique by (case, external id), a snapshot row by (candidate, hash). */
  type CandidateRows = Rows<CaseCandidate>
  type SnapshotRows = Rows<string>

  datatype Ref = Ref(candidateId: string, externalId: string, snapshotId: string)

  function ProfileOf(c: Candidate): Profile {
    Profile(c.name, c.title, c.company, c.location, c.summary, c.email, c.phone)
  }

  /** The id of the row with this unique value, if there is one. */
  ghost function StoredId<T>(m: Rows<T>, unique: (string, string)): (id: Option<string>)
    ensures id.Some? ==> id.value in m && m[id.value].unique == unique
    ensures id.None? <==> forall a :: a in m ==> m[a].unique != unique
  {
    if a :| a in m && m[a].unique == unique then Some(a) else None
  }

  /** What one candidate of a request amounts to, given the tables before the request. */
  datatype Plan = Plan(row: Row<CaseCandidate>, snapshot: Row<string>, newSnapshot: bool)

  /** A request and the ids its new rows would get. */
  datatype Request = Request(
    caseId: string, candidates: seq<Candidate>, candidateIds: seq<string>, snapshotIds: seq<string>)

  ghost predicate FreshIds(r: Request, c: CandidateRows, s: SnapshotRows) {
    && |r.candidateIds| == |r.snapshotIds| == |r.candidates|
    && Distinct(r.candidateIds) && Distinct(r.snapshotIds)
    && (forall i :: 0 <= i < |r.candidateIds| ==> r.candidateIds[i] !in c)
    && (forall i :: 0 <= i < |r.snapshotIds| ==> r.snapshotIds[i] !in s)
    && (forall i, id :: 0 <= i < |r.candidateIds| && id in s ==> s[id].unique.0 != r.candidateIds[i])
  }

  ghost function PlanOf(c: CandidateRows, s: SnapshotRows, hash: Candidate -> string, r: Request, i: nat): Plan
    requires FreshIds(r, c, s) && i < |r.candidates|
  {
    var candidate := r.candidates[i];
    var id := StoredId(c, (r.caseId, candidate.externalId)).GetOr(r.candidateIds[i]);
    var stored := StoredId(s, (id, hash(candidate)));
    var snapshotId := stored.GetOr(r.snapshotIds[i]);
    var verdict := if id in c then c[id].data.latestVerdict else None;
    Plan(Row(id, (r.caseId, candidate.externalId), CaseCandidate(Some(snapshotId), verdict, ProfileOf(candidate))),
         Row(snapshotId, (id, hash(candidate)), candidate.projection),
         stored.None?)
  }

  ghost function CandidateSaves(c: CandidateRows, s: SnapshotRows, hash: Candidate -> string, r: Request, n: nat)
    : (rows: seq<Row<CaseCandidate>>)
    requires FreshIds(r, c, s) && n <= |r.candidates|
    ensures |rows| == n && forall i :: 0 <= i < n ==> rows[i] == PlanOf(c, s, hash, r, i).row
  {
    seq(n, i requires 0 <= i < n => PlanOf(c, s, hash, r, i).row)
  }

  ghost function Plans(
      c: CandidateRows, s: SnapshotRows, hash: Candidate -> string, r: Request, n: nat): (plans: seq<Plan>)
    requires FreshIds(r, c, s) && n <= |r.candidates|
    ensures |plans| == n && forall i :: 0 <= i < n ==> plans[i] == PlanOf(c, s, hash, r, i)
  {
    seq(n, i requires 0 <= i < n => PlanOf(c, s, hash, r, i))
  }

  function NewSnapshots(plans: seq<Plan>): seq<Row<string>> {
    if plans == [] then []
    else
      var last := plans[|plans| - 1];
      NewSnapshots(plans[..|plans| - 1]) + if last.newSnapshot then [last.snapshot] else []
  }

  ghost function SnapshotSaves(
      c: CandidateRows, s: SnapshotRows, hash: Candidate -> string, r: Request, n: nat): seq<Row<string>>
    requires FreshIds(r, c, s) && n <= |r.candidates|
  {
    NewSnapshots(Plans(c, s, hash, r, n))
  }

  ghost function Refs(
      c: CandidateRows, s: SnapshotRows, hash: Candidate -> string, r: Request, n: nat): (refs: seq<Ref>)
    requires FreshIds(r, c, s) && n <= |r.candidates|
    ensures |refs| == n
    ensures forall i :: 0 <= i < n ==> refs[i].externalId == r.candidates[i].externalId
  {
    seq(n, i requires 0 <= i < n =>
      var plan := PlanOf(c, s, hash, r, i);
      Ref(plan.row.id, r.candidates[i].externalId, plan.snapshot.id))
  }

  /** The record of a candidate, existing or new, with the candidate's profile; not saved yet. */
  method UpsertCaseCandidate(candidates: Table<CaseCandidate>, caseId: string, candidate: Candidate, newId: string)
    returns (record: Row<CaseCandidate>)
    requires candidates.Valid() && UniqueOk(candidates.database)
    ensures record.id == StoredId(candidates.database, (caseId, candidate.externalId)).GetOr(newId)
    ensures record.unique == (caseId, candidate.externalId) && record.data.profile == ProfileOf(candidate)
    ensures if StoredId(candidates.database, record.unique).Some?
            then record.id in candidates.View()
              && record.data.latestVerdict == candidates.View()[record.id].data.latestVerdict
            else record.data.latestVerdict == None
  {
    var existing := candidates.FindByUnique((caseId, candidate.externalId));
    if existing.None? {
      record := Row(newId, (caseId, candidate.externalId), CaseCandidate(None, None, ProfileOf(candidate)));
    } else {
      record := Row(existing.value.id, (caseId, candidate.externalId),
                    existing.value.data.(profile := ProfileOf(candidate)));
    }
  }

  method UpsertResumeSnapshot(
      snapshots: Table<string>, hash: Candidate -> string, candidate: Candidate, candidateId: string, newId: string)
    returns (id: string)
    requires snapshots.Valid() && UniqueOk(snapshots.database)
    modifies snapshots
    ensures snapshots.Valid() && snapshots.database == old(snapshots.database)
    ensures var stored := StoredId(snapshots.database, (candidateId, hash(candidate)));
      && id == stored.GetOr(newId)
      && snapshots.View() ==
           if stored.Some? then old(snapshots.View())
           else old(snapshots.View())[newId := Row(newId, (candidateId, hash(candidate)), candidate.projection)]
  {
    var existing := snapshots.FindByUnique((candidateId, hash(candidate)));
    if existing.Some? {
      return existing.value.id;
    }
    id := newId;
    snapshots.SaveRecord(Row(newId, (candidateId, hash(candidate)), candidate.projection));
  }

  method PersistCandidateSnapshots(
      candidates: Table<CaseCandidate>, snapshots: Table<string>, hash: Candidate -> string, r: Request)
    returns (persisted: Option<seq<Ref>>)
    requires candidates.Valid() && candidates.Fresh() && snapshots.Valid() && snapshots.Fresh()
    requires candidates as object != snapshots as object
    requires UniqueOk(candidates.database) && UniqueOk(snapshots.database)
    requires FreshIds(r, candidates.database, snapshots.database)
    modifies candidates, snapshots
    ensures candidates.Valid() && candidates.Fresh() && snapshots.Valid() && snapshots.Fresh()
    ensures var c, s := old(candidates.database), old(snapshots.database);
      var c', s' := CandidatesAfter(c, s, hash, r), SnapshotsAfter(c, s, hash, r);
      && (persisted.Some? <==> UniqueOk(c') && UniqueOk(s'))
      && candidates.database == (if persisted.Some? then c' else c)
      && snapshots.database == (if persisted.Some? then s' else s)
      && (persisted.Some? ==> persisted.value == Refs(c, s, hash, r, |r.candidates|))
  {
    hide UniqueOk, SaveAll, PlanOf, FreshIds, CandidateSaves, SnapshotSaves;
    ghost var c, s := candidates.database, snapshots.database;
    NothingSaved(candidates, snapshots, hash, r);
    var refs: seq<Ref> := [];
    var i := 0;
    while i < |r.candidates|
      invariant 0 <= i <= |r.candidates|
      invariant Persisted(candidates, snapshots, c, s, hash, r, i)
      invariant refs == Refs(c, s, hash, r, i)
    {
      var ref := PersistCandidate(candidates, snapshots, c, s, hash, r, i);
      refs := refs + [ref];
      i := i + 1;
    }
    var ok := CommitTogether(candidates, snapshots);
    persisted := if ok then Some(refs) else None;
  }

  /** The session holds the saves of the first `n` candidates of a request. */
  ghost predicate Persisted(
      candidates: Table<CaseCandidate>, snapshots: Table<string>, c: CandidateRows, s: SnapshotRows,
      hash: Candidate -> string, r: Request, n: nat)
    requires FreshIds(r, c, s) && n <= |r.candidates|
    reads candidates, snapshots
  {
    && candidates.Valid() && snapshots.Valid() && candidates.database == c && snapshots.database == s
    && candidates.View() == SaveAll(c, CandidateSaves(c, s, hash, r, n))
    && snapshots.View() == SaveAll(s, SnapshotSaves(c, s, hash, r, n))
  }

  lemma {:induction false} NothingSaved(
      candidates: Table<CaseCandidate>, snapshots: Table<string>, hash: Candidate -> string, r: Request)
    requires candidates.Valid() && candidates.Fresh() && snapshots.Valid() && snapshots.Fresh()
    requires FreshIds(r, candidates.database, snapshots.database)
    ensures Persisted(candidates, snapshots, candidates.database, snapshots.database, hash, r, 0)
  {
  }

  method PersistCandidate(
      candidates: Table<CaseCandidate>, snapshots: Table<string>, ghost c: CandidateRows, ghost s: SnapshotRows,
      hash: Candidate -> string, r: Request, i: nat)
    returns (ref: Ref)
    requires FreshIds(r, c, s) && i < |r.candidates|
    requires candidates as object != snapshots as object
    requires UniqueOk(c) && UniqueOk(s) && Persisted(candidates, snapshots, c, s, hash, r, i)
    modifies candidates, snapshots
    ensures Persisted(candidates, snapshots, c, s, hash, r, i + 1)
    ensures ref == Refs(c, s, hash, r, i + 1)[i]
  {
    hide UniqueOk, SaveAll;
    ghost var plan := PlanOf(c, s, hash, r, i);
    VerdictKept(c, s, hash, r, i);
    OneMoreSave(c, s, hash, r, i);
    var candidate := r.candidates[i];
    var record := UpsertCaseCandidate(candidates, r.caseId, candidate, r.candidateIds[i]);
    var snapshotId := UpsertResumeSnapshot(snapshots, hash, candidate, record.id, r.snapshotIds[i]);
    record := record.(data := record.data.(latestSnapshotId := Some(snapshotId)));
    assert record == plan.row && snapshotId == plan.snapshot.id;
    candidates.SaveRecord(record);
    ref := Ref(record.id, candidate.externalId, snapshotId);
  }

  lemma {:induction false} OneMoreSave(c: CandidateRows, s: SnapshotRows, hash: Candidate -> string, r: Request, i: nat)
    requires FreshIds(r, c, s) && i < |r.candidates|
    ensures var plan := PlanOf(c, s, hash, r, i);
      && SaveAll(c, CandidateSaves(c, s, hash, r, i + 1)) ==
          SaveAll(c, CandidateSaves(c, s, hash, r, i))[plan.row.id := plan.row]
      && SaveAll(s, SnapshotSaves(c, s, hash, r, i + 1)) ==
           (if plan.newSnapshot then SaveAll(s, SnapshotSaves(c, s, hash, r, i))[plan.snapshot.id := plan.snapshot]
            else SaveAll(s, SnapshotSaves(c, s, hash, r, i)))
      && (plan.row.id in c <==> StoredId(c, plan.row.unique).Some?)
  {
    hide SaveAll;
    OneMoreCandidate(c, s, hash, r, i);
    OneMoreSnapshot(c, s, hash, r, i);
  }

  lemma {:induction false} OneMoreCandidate(
      c: CandidateRows, s: SnapshotRows, hash: Candidate -> string, r: Request, i: nat)
    requires FreshIds(r, c, s) && i < |r.candidates|
    ensures var row := PlanOf(c, s, hash, r, i).row;
      SaveAll(c, CandidateSaves(c, s, hash, r, i + 1)) == SaveAll(c, CandidateSaves(c, s, hash, r, i))[row.id := row]
  {
    hide PlanOf, FreshIds;
    assert CandidateSaves(c, s, hash, r, i + 1)[..i] == CandidateSaves(c, s, hash, r, i);
  }

  lemma {:induction false} OneMoreSnapshot(
      c: CandidateRows, s: SnapshotRows, hash: Candidate -> string, r: Request, i: nat)
    requires FreshIds(r, c, s) && i < |r.candidates|
    ensures var plan, before := PlanOf(c, s, hash, r, i), SaveAll(s, SnapshotSaves(c, s, hash, r, i));
      SaveAll(s, SnapshotSaves(c, s, hash, r, i + 1)) ==
        if plan.newSnapshot then before[plan.snapshot.id := plan.snapshot] else before
  {
    hide PlanOf, FreshIds;
    var rows, plan := SnapshotSaves(c, s, hash, r, i), PlanOf(c, s, hash, r, i);
    assert Plans(c, s, hash, r, i + 1)[..i] == Plans(c, s, hash, r, i);
    assert (rows + [plan.snapshot])[..|rows|] == rows && rows + [] == rows;
  }

  ghost function CandidatesAfter(
      c: CandidateRows, s: SnapshotRows, hash: Candidate -> string, r: Request): CandidateRows
    requires FreshIds(r, c, s)
  {
    SaveAll(c, CandidateSaves(c, s, hash, r, |r.candidates|))
  }

  ghost function SnapshotsAfter(c: CandidateRows, s: SnapshotRows, hash: Candidate -> string, r: Request): SnapshotRows
    requires FreshIds(r, c, s)
  {
    SaveAll(s, SnapshotSaves(c, s, hash, r, |r.candidates|))
  }

  /** Saving candidates again never changes a recorded verdict. */
  lemma {:induction false} VerdictKept(c: CandidateRows, s: SnapshotRows, hash: Candidate -> string, r: Request, n: nat)
    requires FreshIds(r, c, s) && n <= |r.candidates|
    ensures var all := SaveAll(c, CandidateSaves(c, s, hash, r, n));
      forall id :: id in c && id in all ==> all[id].data.latestVerdict == c[id].data.latestVerdict
  {
    var rows := CandidateSaves(c, s, hash, r, n);
    forall id | id in c && id in SaveAll(c, rows)
      ensures SaveAll(c, rows)[id].data.latestVerdict == c[id].data.latestVerdict
    {
      LastSaveWins(c, rows, id);
    }
  }

  // ---------------------------------------------------------------------------------------
  // When a request commits, and what a retry does
  // ---------------------------------------------------------------------------------------

  /** Two positions of a request hold one candidate that is not stored yet. */
  ghost predicate NewTwice(c: CandidateRows, r: Request, i: nat, j: nat)
    requires i < |r.candidates| && j < |r.candidates|
  {
    && r.candidates[i].externalId == r.candidates[j].externalId
    && StoredId(c, (r.caseId, r.candidates[i].externalId)).None?
  }

  /** Two positions hold one stored candidate with one content that has no snapshot yet. */
  ghost predicate NewContentTwice(
      c: CandidateRows, s: SnapshotRows, hash: Candidate -> string, r: Request, i: nat, j: nat)
    requires i < |r.candidates| && j < |r.candidates|
  {
    && r.candidates[i].externalId == r.candidates[j].externalId
    && hash(r.candidates[i]) == hash(r.candidates[j])
    && var stored := StoredId(c, (r.caseId, r.candidates[i].externalId));
       stored.Some? && StoredId(s, (stored.value, hash(r.candidates[i]))).None?
  }

  ghost predicate NoNewTwice(c: CandidateRows, r: Request) {
    forall i, j :: 0 <= i < |r.candidates| && 0 <= j < |r.candidates| && i != j ==> !NewTwice(c, r, i, j)
  }

  ghost predicate NoNewContentTwice(c: CandidateRows, s: SnapshotRows, hash: Candidate -> string, r: Request) {
    forall i, j :: 0 <= i < |r.candidates| && 0 <= j < |r.candidates| && i != j ==>
        !NewContentTwice(c, s, hash, r, i, j)
  }

  /** No two positions ask for the same new row: a query does not see rows still pending in the
      session, so both would be inserted. */
  ghost predicate Repeatable(c: CandidateRows, s: SnapshotRows, hash: Candidate -> string, r: Request) {
    NoNewTwice(c, r) && NoNewContentTwice(c, s, hash, r)
  }

  ghost predicate DistinctExternalIds(r: Request) {
    forall i, j :: 0 <= i < j < |r.candidates| ==> r.candidates[i].externalId != r.candidates[j].externalId
  }

  lemma {:induction false} NewSnapshotsMembers(plans: seq<Plan>)
    ensures forall x :: x in NewSnapshots(plans) <==> exists p :: p in plans && p.newSnapshot && x == p.snapshot
  {
    if plans != [] {
      var n := |plans| - 1;
      NewSnapshotsMembers(plans[..n]);
      assert forall p :: p in plans <==> p in plans[..n] || p == plans[n];
    }
  }

  /** Two candidates of a request get one row id exactly when they are one candidate, or share an
      external id that is stored. */
  lemma {:induction false} SameRowId(
      c: CandidateRows, s: SnapshotRows, hash: Candidate -> string, r: Request, i: nat, j: nat)
    requires FreshIds(r, c, s) && i < |r.candidates| && j < |r.candidates| && UniqueOk(c)
    ensures var x, y := PlanOf(c, s, hash, r, i).row, PlanOf(c, s, hash, r, j).row;
      && (x.id == y.id <==> i == j || (x.unique == y.unique && StoredId(c, x.unique).Some?))
      && (x.id == y.id ==> x.unique == y.unique)
      && Consistent(c, x)
  {
  }

  lemma {:induction false} CandidatesUniqueIff(c: CandidateRows, s: SnapshotRows, hash: Candidate -> string, r: Request)
    requires FreshIds(r, c, s) && UniqueOk(c)
    ensures UniqueOk(CandidatesAfter(c, s, hash, r)) <==> NoNewTwice(c, r)
  {
    hide UniqueOk, SaveAll;
    var n := |r.candidates|;
    var rows := CandidateSaves(c, s, hash, r, n);
    forall i, j | 0 <= i < n && 0 <= j < n ensures RowsAgree(c, r, rows, i, j) {
      SameRowId(c, s, hash, r, i, j);
    }
    RowsUniqueIff(c, r, rows);
  }

  ghost predicate RowsAgree(c: CandidateRows, r: Request, rows: seq<Row<CaseCandidate>>, i: nat, j: nat)
    requires |rows| == |r.candidates| && i < |rows| && j < |rows|
  {
    && Consistent(c, rows[i])
    && (rows[i].id == rows[j].id ==> rows[i].unique == rows[j].unique)
    && (i != j ==> (rows[i].unique == rows[j].unique && rows[i].id != rows[j].id <==> NewTwice(c, r, i, j)))
  }

  lemma {:induction false} RowsUniqueIff(c: CandidateRows, r: Request, rows: seq<Row<CaseCandidate>>)
    requires UniqueOk(c) && |rows| == |r.candidates|
    requires forall i, j :: 0 <= i < |rows| && 0 <= j < |rows| ==> RowsAgree(c, r, rows, i, j)
    ensures UniqueOk(SaveAll(c, rows)) <==> NoNewTwice(c, r)
  {
    hide UniqueOk, SaveAll, Consistent, NewTwice;
    forall x, y | x in rows && y in rows && x.id == y.id ensures x.unique == y.unique && Consistent(c, x) {
      var i, j :| 0 <= i < |rows| && 0 <= j < |rows| && rows[i] == x && rows[j] == y;
      assert RowsAgree(c, r, rows, i, j);
    }
    SavesUniqueIff(c, rows);
    if NoNewTwice(c, r) {
      forall x, y | x in rows && y in rows && x.unique == y.unique ensures x.id == y.id {
        var i, j :| 0 <= i < |rows| && 0 <= j < |rows| && rows[i] == x && rows[j] == y;
        assert RowsAgree(c, r, rows, i, j);
        assert i != j ==> !NewTwice(c, r, i, j);
      }
    }
    if forall x, y :: x in rows && y in rows && x.unique == y.unique ==> x.id == y.id {
      forall i, j | 0 <= i < |rows| && 0 <= j < |rows| && i != j ensures !NewTwice(c, r, i, j) {
        assert RowsAgree(c, r, rows, i, j) && rows[i] in rows && rows[j] in rows;
      }
    }
  }

  /** New snapshots fit the table, and distinct candidates give them distinct ids. */
  ghost predicate WellPlanned(s: SnapshotRows, plans: seq<Plan>) {
    && (forall i :: 0 <= i < |plans| && plans[i].newSnapshot ==> Consistent(s, plans[i].snapshot))
    && (forall i, j :: 0 <= i < j < |plans| && plans[i].newSnapshot && plans[j].newSnapshot ==>
          plans[i].snapshot.id != plans[j].snapshot.id)
  }

  ghost predicate TwoNewAlike(plans: seq<Plan>, i: nat, j: nat)
    requires i < |plans| && j < |plans|
  {
    plans[i].newSnapshot && plans[j].newSnapshot && plans[i].snapshot.unique == plans[j].snapshot.unique
  }

  ghost predicate NoneAlike(plans: seq<Plan>) {
    forall i, j :: 0 <= i < |plans| && 0 <= j < |plans| && i != j ==> !TwoNewAlike(plans, i, j)
  }

  lemma {:induction false} NewSnapshotsUniqueIff(s: SnapshotRows, plans: seq<Plan>)
    requires UniqueOk(s) && WellPlanned(s, plans)
    ensures UniqueOk(SaveAll(s, NewSnapshots(plans))) <==> NoneAlike(plans)
  {
    hide UniqueOk, SaveAll, Consistent;
    var rows := NewSnapshots(plans);
    NewSnapshotsMembers(plans);
    assert forall i :: 0 <= i < |plans| ==> plans[i] in plans;
    forall x, y | x in rows && y in rows && x.id == y.id ensures x == y && Consistent(s, x) {
      var i :| 0 <= i < |plans| && plans[i].newSnapshot && x == plans[i].snapshot;
      var j :| 0 <= j < |plans| && plans[j].newSnapshot && y == plans[j].snapshot;
    }
    SavesUniqueIff(s, rows);
    if NoneAlike(plans) {
      forall x, y | x in rows && y in rows && x.unique == y.unique ensures x.id == y.id {
        var i :| 0 <= i < |plans| && plans[i].newSnapshot && x == plans[i].snapshot;
        var j :| 0 <= j < |plans| && plans[j].newSnapshot && y == plans[j].snapshot;
        assert i != j ==> !TwoNewAlike(plans, i, j);
      }
    }
    if forall x, y :: x in rows && y in rows && x.unique == y.unique ==> x.id == y.id {
      forall i, j | 0 <= i < |plans| && 0 <= j < |plans| && i != j ensures !TwoNewAlike(plans, i, j) {
        if plans[i].newSnapshot && plans[j].newSnapshot {
          assert plans[i].snapshot in rows && plans[j].snapshot in rows;
        }
      }
    }
  }

  lemma {:induction false} PlansWellPlanned(c: CandidateRows, s: SnapshotRows, hash: Candidate -> string, r: Request)
    requires FreshIds(r, c, s)
    ensures WellPlanned(s, Plans(c, s, hash, r, |r.candidates|))
  {
  }

  lemma {:induction false} AlikeIff(
      c: CandidateRows, s: SnapshotRows, hash: Candidate -> string, r: Request, i: nat, j: nat)
    requires FreshIds(r, c, s) && UniqueOk(c) && i < |r.candidates| && j < |r.candidates| && i != j
    ensures TwoNewAlike(Plans(c, s, hash, r, |r.candidates|), i, j) <==> NewContentTwice(c, s, hash, r, i, j)
  {
  }

  lemma {:induction false} SnapshotsUniqueIff(c: CandidateRows, s: SnapshotRows, hash: Candidate -> string, r: Request)
    requires FreshIds(r, c, s) && UniqueOk(c) && UniqueOk(s)
    ensures UniqueOk(SnapshotsAfter(c, s, hash, r)) <==> NoNewContentTwice(c, s, hash, r)
  {
    hide UniqueOk, TwoNewAlike, NewContentTwice, SaveAll, NewSnapshots, PlanOf;
    var plans := Plans(c, s, hash, r, |r.candidates|);
    PlansWellPlanned(c, s, hash, r);
    NewSnapshotsUniqueIff(s, plans);
    forall i, j | 0 <= i < |plans| && 0 <= j < |plans| && i != j
      ensures TwoNewAlike(plans, i, j) <==> NewContentTwice(c, s, hash, r, i, j)
    {
      AlikeIff(c, s, hash, r, i, j);
    }
  }

  /** A request commits exactly when no two of its positions ask for the same new row. */
  lemma {:induction false} CommitsIff(c: CandidateRows, s: SnapshotRows, hash: Candidate -> string, r: Request)
    requires FreshIds(r, c, s) && UniqueOk(c) && UniqueOk(s)
    ensures UniqueOk(CandidatesAfter(c, s, hash, r)) && UniqueOk(SnapshotsAfter(c, s, hash, r)) <==>
            Repeatable(c, s, hash, r)
  {
    CandidatesUniqueIff(c, s, hash, r);
    SnapshotsUniqueIff(c, s, hash, r);
  }

  /** After a request with distinct external ids both constraints hold, and every returned ref names
      the stored candidate of that case and external id, whose latest snapshot is the returned one. */
  lemma {:induction false} RefsNameStoredRows(
      c: CandidateRows, s: SnapshotRows, hash: Candidate -> string, r: Request, i: nat)
    requires FreshIds(r, c, s) && UniqueOk(c) && UniqueOk(s) && DistinctExternalIds(r) && i < |r.candidates|
    ensures var c', s' := CandidatesAfter(c, s, hash, r), SnapshotsAfter(c, s, hash, r);
      var plan, ref := PlanOf(c, s, hash, r, i), Refs(c, s, hash, r, |r.candidates|)[i];
      && UniqueOk(c') && UniqueOk(s')
      && ref.candidateId in c' && c'[ref.candidateId] == plan.row
      && plan.row.unique == (r.caseId, ref.externalId) && plan.row.data.latestSnapshotId == Some(ref.snapshotId)
      && ref.externalId == r.candidates[i].externalId
      && ref.snapshotId in s' && s'[ref.snapshotId].unique == (ref.candidateId, hash(r.candidates[i]))
  {
    CommitsIff(c, s, hash, r);
    DistinctIsRepeatable(c, s, hash, r);
    var n := |r.candidates|;
    var rows := CandidateSaves(c, s, hash, r, n);
    forall j, k | 0 <= j < k < n ensures rows[j].id != rows[k].id { SameRowId(c, s, hash, r, j, k); }
    SavedRow(c, rows, i);
    SnapshotStored(c, s, hash, r, i);
  }

  /** What the stored rows hold of a candidate: every column of its profile as given, the verdict the row
      had before or none, and for new content a snapshot with the candidate's projection. */
  lemma {:induction false} StoredContent(
      c: CandidateRows, s: SnapshotRows, hash: Candidate -> string, r: Request, i: nat)
    requires FreshIds(r, c, s) && UniqueOk(c) && UniqueOk(s) && DistinctExternalIds(r) && i < |r.candidates|
    ensures var c', s' := CandidatesAfter(c, s, hash, r), SnapshotsAfter(c, s, hash, r);
      var given, ref := r.candidates[i], Refs(c, s, hash, r, |r.candidates|)[i];
      && ref.candidateId in c' && ref.snapshotId in s'
      && var row := c'[ref.candidateId].data;
      && row.profile.name == given.name && row.profile.title == given.title
      && row.profile.company == given.company && row.profile.location == given.location
      && row.profile.summary == given.summary && row.profile.email == given.email && row.profile.phone == given.phone
      && row.latestVerdict == (if ref.candidateId in c then c[ref.candidateId].data.latestVerdict else None)
      && (ref.candidateId in c ==> c[ref.candidateId].unique == (r.caseId, given.externalId))
      && (ref.snapshotId !in s ==> s'[ref.snapshotId].data == given.projection)
      && (ref.snapshotId in s ==> s'[ref.snapshotId] == s[ref.snapshotId])
  {
    RefsNameStoredRows(c, s, hash, r, i);
    var plan := PlanOf(c, s, hash, r, i);
    var plans := Plans(c, s, hash, r, |r.candidates|);
    var rows, x := NewSnapshots(plans), plan.snapshot;
    NewSnapshotsMembers(plans);
    LastSaveWins(s, rows, x.id);
    PlansWellPlanned(c, s, hash, r);
    assert plans[i] == plan && plan in plans;
    if j :| 0 <= j < |rows| && rows[j].id == x.id && SaveAll(s, rows)[x.id] == rows[j] {
      assert rows[j] in rows;
      var k :| 0 <= k < |plans| && plans[k].newSnapshot && rows[j] == plans[k].snapshot;
      assert x.id !in s;
    }
  }

  lemma {:induction false} SnapshotStored(
      c: CandidateRows, s: SnapshotRows, hash: Candidate -> string, r: Request, i: nat)
    requires FreshIds(r, c, s) && i < |r.candidates|
    ensures var s', x := SnapshotsAfter(c, s, hash, r), PlanOf(c, s, hash, r, i).snapshot;
      x.id in s' && s'[x.id].unique == x.unique
  {
    var plans := Plans(c, s, hash, r, |r.candidates|);
    var plan := plans[i];
    assert !plan.newSnapshot ==> plan.snapshot.id in s && s[plan.snapshot.id].unique == plan.snapshot.unique;
    assert plan.newSnapshot || StoredId(s, plan.snapshot.unique) == Some(plan.snapshot.id);
    PlansWellPlanned(c, s, hash, r);
    NewSnapshotStored(s, plans, i);
  }

  lemma {:induction false} NewSnapshotStored(s: SnapshotRows, plans: seq<Plan>, i: nat)
    requires i < |plans| && WellPlanned(s, plans)
    requires !plans[i].newSnapshot ==>
        plans[i].snapshot.id in s && s[plans[i].snapshot.id].unique == plans[i].snapshot.unique
    ensures var s', x := SaveAll(s, NewSnapshots(plans)), plans[i].snapshot;
      x.id in s' && s'[x.id].unique == x.unique
  {
    var rows, x := NewSnapshots(plans), plans[i].snapshot;
    NewSnapshotsMembers(plans);
    SavedKeys(s, rows);
    assert plans[i] in plans;
    assert plans[i].newSnapshot ==> x in rows;
    LastSaveWins(s, rows, x.id);
    if j :| 0 <= j < |rows| && rows[j].id == x.id && SaveAll(s, rows)[x.id] == rows[j] {
      assert rows[j] in rows;
      var k :| 0 <= k < |plans| && plans[k].newSnapshot && rows[j] == plans[k].snapshot;
      assert Consistent(s, plans[k].snapshot);
    }
  }

  /** Running the same request again, with whatever new ids, returns the same refs and leaves both
      tables exactly as they are. */
  lemma {:induction false} RetryChangesNothing(
      c: CandidateRows, s: SnapshotRows, hash: Candidate -> string, r: Request, retry: Request)
    requires FreshIds(r, c, s) && UniqueOk(c) && UniqueOk(s) && DistinctExternalIds(r)
    requires retry.caseId == r.caseId && retry.candidates == r.candidates
    requires FreshIds(retry, CandidatesAfter(c, s, hash, r), SnapshotsAfter(c, s, hash, r))
    ensures var c', s', n := CandidatesAfter(c, s, hash, r), SnapshotsAfter(c, s, hash, r), |r.candidates|;
      && CandidatesAfter(c', s', hash, retry) == c'
      && SnapshotsAfter(c', s', hash, retry) == s'
      && Refs(c', s', hash, retry, n) == Refs(c, s, hash, r, n)
  {
    hide FreshIds, PlanOf, UniqueOk, SaveAll, NewSnapshots;
    var c', s', n := CandidatesAfter(c, s, hash, r), SnapshotsAfter(c, s, hash, r), |r.candidates|;
    CommitsIff(c, s, hash, r);
    DistinctIsRepeatable(c, s, hash, r);
    forall i | 0 <= i < n
      ensures var plan, again := PlanOf(c, s, hash, r, i), PlanOf(c', s', hash, retry, i);
        again.row == plan.row && again.snapshot.id == plan.snapshot.id && !again.newSnapshot
    {
      SamePlanAgain(c, s, hash, r, retry, i);
    }
    var rows := CandidateSaves(c, s, hash, r, n);
    assert CandidateSaves(c', s', hash, retry, n) == rows;
    SaveAllAgain(c, rows);
    NothingNew(Plans(c', s', hash, retry, n));
    NoSaves(s');
    assert Refs(c', s', hash, retry, n) == Refs(c, s, hash, r, n);
  }

  lemma {:induction false} DistinctIsRepeatable(
      c: CandidateRows, s: SnapshotRows, hash: Candidate -> string, r: Request)
    requires DistinctExternalIds(r)
    ensures Repeatable(c, s, hash, r)
  {
  }

  /** A save never changes the constrained columns of a stored row, so the order in which a flush
      updates the stored rows does not matter. */
  lemma {:induction false} SavesKeepUnique(
      c: CandidateRows, s: SnapshotRows, hash: Candidate -> string, r: Request, i: nat)
    requires FreshIds(r, c, s) && i < |r.candidates|
    ensures var plan := PlanOf(c, s, hash, r, i);
      && (plan.row.id in c ==> c[plan.row.id].unique == plan.row.unique)
      && (plan.newSnapshot ==> plan.snapshot.id !in s)
  {
  }

  /** Deduplication only sends requests that commit: what it admits from a page has distinct external
      ids, so both constraints hold afterwards and there is one reference per admitted candidate. */
  lemma {:induction false} DedupedRequestCommits(
      seen: seq<string>, page: seq<Candidate>, c: CandidateRows, s: SnapshotRows, hash: Candidate -> string, r: Request)
    requires Distinct(seen) && r.candidates == Rounds.Admitted(seen, page)
    requires FreshIds(r, c, s) && UniqueOk(c) && UniqueOk(s)
    ensures DistinctExternalIds(r)
    ensures UniqueOk(CandidatesAfter(c, s, hash, r)) && UniqueOk(SnapshotsAfter(c, s, hash, r))
    ensures var refs := Refs(c, s, hash, r, |r.candidates|);
      |refs| == |r.candidates| && forall i :: 0 <= i < |refs| ==> refs[i].externalId == r.candidates[i].externalId
  {
    hide UniqueOk, FreshIds, PlanOf, Rounds.Admitted;
    Rounds.SeenStaysDistinct(seen, page);
    var ids := Rounds.ExternalIds(r.candidates);
    var all := seen + ids;
    forall i, j | 0 <= i < j < |ids| ensures ids[i] != ids[j] {
      assert all[|seen| + i] != all[|seen| + j];
    }
    DistinctIsRepeatable(c, s, hash, r);
    CommitsIff(c, s, hash, r);
  }

  lemma {:induction false} SamePlanAgain(
      c: CandidateRows, s: SnapshotRows, hash: Candidate -> string, r: Request, retry: Request, i: nat)
    requires FreshIds(r, c, s) && UniqueOk(c) && UniqueOk(s) && DistinctExternalIds(r) && i < |r.candidates|
    requires retry.caseId == r.caseId && retry.candidates == r.candidates
    requires FreshIds(retry, CandidatesAfter(c, s, hash, r), SnapshotsAfter(c, s, hash, r))
    ensures var c', s' := CandidatesAfter(c, s, hash, r), SnapshotsAfter(c, s, hash, r);
      var plan, again := PlanOf(c, s, hash, r, i), PlanOf(c', s', hash, retry, i);
      again.row == plan.row && again.snapshot.id == plan.snapshot.id && !again.newSnapshot
  {
    hide UniqueOk, SaveAll, NewSnapshots;
    var plan := PlanOf(c, s, hash, r, i);
    RefsNameStoredRows(c, s, hash, r, i);
    OwnerUnique(CandidatesAfter(c, s, hash, r), plan.row);
    OwnerUnique(SnapshotsAfter(c, s, hash, r), plan.snapshot);
  }

  lemma {:induction false} NothingNew(plans: seq<Plan>)
    requires forall i :: 0 <= i < |plans| ==> !plans[i].newSnapshot
    ensures NewSnapshots(plans) == []
  {
    if plans != [] { NothingNew(plans[..|plans| - 1]); }
  }

  lemma {:induction false} OwnerUnique<T>(m: Rows<T>, row: Row<T>)
    requires UniqueOk(m) && row.id in m && m[row.id].unique == row.unique
    ensures StoredId(m, row.unique) == Some(row.id)
  {
  }

  /** Why distinctness matters: a new candidate listed twice makes the whole request fail. */
  lemma {:induction false} RepeatedNewCandidateFails(
      c: CandidateRows, s: SnapshotRows, hash: Candidate -> string, r: Request, i: nat, j: nat)
    requires FreshIds(r, c, s) && UniqueOk(c) && UniqueOk(s) && i < j < |r.candidates| && NewTwice(c, r, i, j)
    ensures !UniqueOk(CandidatesAfter(c, s, hash, r))
  {
    CandidatesUniqueIff(c, s, hash, r);
  }

  // ---------------------------------------------------------------------------------------
  // Analyses
  // ---------------------------------------------------------------------------------------

  datatype Analysis = Analysis(
    snapshotId: string, modelVersion: string, promptVersion: string, summary: string, evidence: seq<string>,
    concerns: seq<string>)

  /** The analysis table has no uniqueness constraint besides its key. */
  function AnalysisRow(analysisId: (string, string, string) -> string, a: Analysis): Row<Analysis> {
    var id := analysisId(a.snapshotId, a.modelVersion, a.promptVersion);
    Row(id, (id, id), a)
  }

  function AnalysisRows(
      analysisId: (string, string, string) -> string, items: seq<Analysis>): (rows: seq<Row<Analysis>>)
    ensures |rows| == |items| && forall i :: 0 <= i < |items| ==> rows[i] == AnalysisRow(analysisId, items[i])
  {
    seq(|items|, i requires 0 <= i < |items| => AnalysisRow(analysisId, items[i]))
  }

  ghost predicate KeyIsUnique<T>(m: Rows<T>) {
    forall id :: id in m ==> m[id].unique == (id, id)
  }

  method PersistResumeAnalyses(
      table: Table<Analysis>, analysisId: (string, string, string) -> string, items: seq<Analysis>)
    returns (count: int)
    requires table.Valid() && table.Fresh() && KeyIsUnique(table.database)
    modifies table
    ensures table.Valid() && table.Fresh() && KeyIsUnique(table.database)
    ensures table.database == SaveAll(old(table.database), AnalysisRows(analysisId, items))
    ensures forall i :: 0 <= i < |items| && LastOfItsKey(analysisId, items, i) ==>
      var id := analysisId(items[i].snapshotId, items[i].modelVersion, items[i].promptVersion);
      id in table.database && table.database[id].data == items[i]
    ensures forall id :: id in table.database && KeyUnused(analysisId, items, id) ==>
      id in old(table.database) && table.database[id] == old(table.database)[id]
    ensures count == |items|
  {
    hide SaveAll, UniqueOk;
    ghost var before, rows := table.database, AnalysisRows(analysisId, items);
    assert before + table.dirty == before;
    NoSaves(before);
    KeyStaysUnique(before, analysisId, items);
    AnalysesStored(before, analysisId, items);
    hide LastOfItsKey, KeyUnused;
    if items == [] {
      assert rows == [];
      return 0;
    }
    var i := 0;
    while i < |items|
      invariant 0 <= i <= |items| && table.Valid() && table.database == before
      invariant table.View() == SaveAll(before, rows[..i])
    {
      NextSave(before, rows, i);
      table.SaveRecord(AnalysisRow(analysisId, items[i]));
      i := i + 1;
    }
    assert rows[..i] == rows;
    var ok := table.Commit();
    count := |items|;
  }

  /** No later analysis of a request has the same snapshot, model and prompt version key. */
  ghost predicate LastOfItsKey(analysisId: (string, string, string) -> string, items: seq<Analysis>, i: nat)
    requires i < |items|
  {
    forall j :: i < j < |items| ==>
      analysisId(items[j].snapshotId, items[j].modelVersion, items[j].promptVersion) !=
      analysisId(items[i].snapshotId, items[i].modelVersion, items[i].promptVersion)
  }

  ghost predicate KeyUnused(analysisId: (string, string, string) -> string, items: seq<Analysis>, id: string) {
    forall x :: x in items ==> analysisId(x.snapshotId, x.modelVersion, x.promptVersion) != id
  }

  lemma {:induction false} AnalysesStored(
      m: Rows<Analysis>, analysisId: (string, string, string) -> string, items: seq<Analysis>)
    ensures var after := SaveAll(m, AnalysisRows(analysisId, items));
      && (forall i :: 0 <= i < |items| && LastOfItsKey(analysisId, items, i) ==>
            var id := analysisId(items[i].snapshotId, items[i].modelVersion, items[i].promptVersion);
            id in after && after[id].data == items[i])
      && (forall id :: id in after && KeyUnused(analysisId, items, id) ==> id in m && after[id] == m[id])
  {
    var rows := AnalysisRows(analysisId, items);
    SavedKeys(m, rows);
    forall i | 0 <= i < |items| && LastOfItsKey(analysisId, items, i)
      ensures rows[i].id in SaveAll(m, rows) && SaveAll(m, rows)[rows[i].id].data == items[i]
    {
      LastSaveWins(m, rows, rows[i].id);
      var k :| 0 <= k < |rows| && rows[k].id == rows[i].id && forall j :: k < j < |rows| ==> rows[j].id != rows[k].id;
      assert k <= i;
    }
    forall id | id in SaveAll(m, rows) && KeyUnused(analysisId, items, id)
      ensures id in m && SaveAll(m, rows)[id] == m[id]
    {
      LastSaveWins(m, rows, id);
      forall j | 0 <= j < |rows| ensures rows[j].id != id { assert items[j] in items; }
    }
  }

  lemma {:induction false} KeyStaysUnique(
      m: Rows<Analysis>, analysisId: (string, string, string) -> string, items: seq<Analysis>)
    requires KeyIsUnique(m)
    ensures var after := SaveAll(m, AnalysisRows(analysisId, items)); KeyIsUnique(after) && UniqueOk(after)
  {
    var rows := AnalysisRows(analysisId, items);
    forall id | id in SaveAll(m, rows) ensures SaveAll(m, rows)[id].unique == (id, id) {
      LastSaveWins(m, rows, id);
    }
  }

  /** Repeating an analysis request leaves the table exactly as it is. */
  lemma {:induction false} AnalysesRetryChangesNothing(
      m: Rows<Analysis>, analysisId: (string, string, string) -> string, items: seq<Analysis>)
    ensures var once := SaveAll(m, AnalysisRows(analysisId, items));
      && SaveAll(once, AnalysisRows(analysisId, items)) == once
      && |SaveAll(once, AnalysisRows(analysisId, items))| == |once|
  {
    SaveAllAgain(m, AnalysisRows(analysisId, items));
  }
}
