/**
 What the per-skill lock of the evolution service protects, and its operations with every
 storage call allowed to fail (evolution/approval_service.go, evolution/promotion.go,
 evolution/worker.go:935-1056). Each is a function from the state before to the state after.
 */
module SkillRevisions {
  import opened Prelude

  /** Revision ids, numbered; NO_REVISION is the empty id of a cleared pointer. */
  type RevisionID = nat

  const NO_REVISION: RevisionID := 0

  /** A skill body, and an instant. */
  type Spec = nat
  type Time = nat

  datatype Action = Create | Update | Delete

  datatype Status = Pending | Active | Rejected | Archived | PendingEval | PendingApproval

  datatype Revision = Revision(
    id: RevisionID,
    parent: RevisionID,
    action: Action,
    spec: Option<Spec>,
    status: Status,
    promotedAt: Option<Time>,
    approved: Option<bool>)  // the human decision, once there is one

  /** One skill: its candidate store, its active pointer and the body its publisher shows. */
  datatype Skill = Skill(
    revisions: map<RevisionID, Revision>,
    order: seq<RevisionID>,  // creation order, as ListRevisions promises
    pointer: RevisionID,
    live: Option<Spec>)

  /** The storage calls of one operation, in the order in which it makes them. */
  datatype Op =
    | ReadRevision | ReadPointer | ListRevisions | ReadCurrent
    | PublishBody | ArchiveReadPointer | ArchiveRead | ArchiveWrite
    | WriteRevision | WritePointer | RestoreCurrent | RestoreTarget

  type Faults = set<Op>

  function Put(s: Skill, rev: Revision): Skill {
    s.(revisions := s.revisions[rev.id := rev],
       order := if rev.id in s.revisions then s.order else s.order + [rev.id])
  }

  function SetStatus(s: Skill, id: RevisionID, status: Status): Skill {
    if id in s.revisions then Put(s, s.revisions[id].(status := status)) else s
  }

  /** validateCurrentParent: an update must still sit on the revision it was made from. */
  predicate Stale(s: Skill, rev: Revision) {
    rev.action == Update && s.pointer != rev.parent
  }

  /** archiveCurrentActiveRevision; the flag is false when a storage call failed. */
  function ArchiveCurrent(s: Skill, replacing: RevisionID, f: Faults): (Skill, bool) {
    if ArchiveReadPointer in f then (s, false)
    else if s.pointer == NO_REVISION || s.pointer == replacing then (s, true)
    else if ArchiveRead in f then (s, false)
    else if s.pointer !in s.revisions || s.revisions[s.pointer].status == Archived then (s, true)
    else if ArchiveWrite in f then (s, false)
    else (SetStatus(s, s.pointer, Archived), true)
  }

  function BodyOf(rev: Revision): Option<Spec> {
    if rev.action == Delete then None else rev.spec
  }

  function PointerFor(rev: Revision): RevisionID {
    if rev.action == Delete then NO_REVISION else rev.id
  }

  /** approveRevision: publish the body, archive the revision it replaces, move the pointer. */
  function ApproveRevision(s: Skill, rev: Revision, f: Faults): (Skill, bool) {
    var publishes := rev.action == Delete || rev.spec.Some?;
    if publishes && PublishBody in f then (s, false)
    else
      var shown := if publishes then s.(live := BodyOf(rev)) else s;
      var (archived, ok) := ArchiveCurrent(shown, rev.id, f);
      if !ok || WritePointer in f then (archived, false)
      else (archived.(pointer := PointerFor(rev)), true)
  }

  datatype DecideResult = Decided | NotFound | AlreadyDecided | StaleParent | DecideFailed

  /** ApprovalService.Decide. */
  function Decide(s: Skill, id: RevisionID, approve: bool, at: Time, f: Faults): (Skill, DecideResult) {
    if ReadRevision in f then (s, DecideFailed)
    else if id !in s.revisions then (s, NotFound)
    else
      var rev := s.revisions[id];
      if rev.status != PendingApproval then (s, AlreadyDecided)
      else if approve && rev.action == Update && ReadPointer in f then (s, DecideFailed)
      else if approve && Stale(s, rev) then
        (if WriteRevision in f then s else Put(s, rev.(status := Rejected, approved := Some(false))), StaleParent)
      else
        var heard := rev.(approved := Some(approve));
        if !approve then
          (if WriteRevision in f then (s, DecideFailed) else (Put(s, heard.(status := Rejected)), Decided))
        else
          var (promoted, ok) := ApproveRevision(s, heard, f);
          if !ok || WriteRevision in f then (promoted, DecideFailed)
          else (Put(promoted, heard.(status := Active, promotedAt := Some(at))), Decided)
  }

  /**
   publishRevision of the worker, for a revision whose gates have passed. A failing write of the
   revision or of the pointer is only logged.
   */
  function PublishRevision(s: Skill, rev: Revision, at: Time, f: Faults): (Skill, bool) {
    if rev.action == Update && ReadPointer in f then (s, false)
    else if Stale(s, rev) then (if WriteRevision in f then s else Put(s, rev.(status := Rejected)), false)
    else if (rev.action != Delete && rev.spec.None?) || PublishBody in f then (s, false)
    else
      var shown := s.(live := BodyOf(rev));
      var written := if WriteRevision in f then shown else Put(shown, rev.(status := Active, promotedAt := Some(at)));
      var (archived, ok) := ArchiveCurrent(written, rev.id, f);
      if !ok then (archived, false)
      else (if WritePointer in f then archived else archived.(pointer := PointerFor(rev)), true)
  }

  /** publishRevision with storage that works. */
  function Publish(s: Skill, rev: Revision, at: Time): Skill {
    PublishRevision(s, rev, at, {}).0
  }

  /** The latest revision with this status, walking the creation order backwards. */
  function Latest(revisions: map<RevisionID, Revision>, order: seq<RevisionID>, status: Status): RevisionID {
    if order == [] then NO_REVISION
    else
      var id := order[|order| - 1];
      if id in revisions && revisions[id].status == status then id
      else Latest(revisions, order[..|order| - 1], status)
  }

  /** selectRollbackTarget: the revision asked for if it is archived, else the latest archived one. */
  function RollbackTarget(s: Skill, wanted: RevisionID): RevisionID {
    if wanted != NO_REVISION then
      if wanted in s.revisions && s.revisions[wanted].status == Archived then wanted else NO_REVISION
    else Latest(s.revisions, s.order, Archived)
  }

  /** currentActiveRevisionID: the pointer, or the latest active tombstone when it is cleared. */
  function CurrentActive(s: Skill): RevisionID {
    if s.pointer != NO_REVISION then s.pointer else Latest(s.revisions, s.order, Active)
  }

  datatype RollbackResult =
    | RolledBack(previous: RevisionID, restored: RevisionID)
    | NoArchivedRevision
    | TargetWithoutSpec
    | TargetAlreadyActive
    | RollbackFailed(op: Op)

  /** The revision that archiving the current one rewrites, if any. */
  function Demoted(s: Skill, current: RevisionID): Option<Revision> {
    if current != NO_REVISION && current in s.revisions && s.revisions[current].status != Archived
    then Some(s.revisions[current]) else None
  }

  /** restoreRollbackRevisions: write both revisions back as they were. */
  function Restore(s: Skill, current: Option<Revision>, target: Revision, f: Faults): Skill {
    var first := if current.Some? && RestoreCurrent !in f then Put(s, current.value) else s;
    if RestoreTarget in f then first else Put(first, target)
  }

  /** ApprovalService.Rollback. */
  function Rollback(s: Skill, wanted: RevisionID, at: Time, f: Faults): (Skill, RollbackResult) {
    if ReadRevision in f then (s, RollbackFailed(ReadRevision))
    else
      var id := RollbackTarget(s, wanted);
      if id == NO_REVISION || id !in s.revisions then (s, NoArchivedRevision)
      else
        var target := s.revisions[id];
        if target.action != Delete && target.spec.None? then (s, TargetWithoutSpec)
        else if ReadPointer in f then (s, RollbackFailed(ReadPointer))
        else if s.pointer == NO_REVISION && ListRevisions in f then (s, RollbackFailed(ListRevisions))
        else
          var current := CurrentActive(s);
          if current == id then (s, TargetAlreadyActive)
          else RollbackTo(s, current, target, at, f)
  }

  /** The part of Rollback that changes something. */
  function RollbackTo(s: Skill, current: RevisionID, target: Revision, at: Time, f: Faults): (Skill, RollbackResult) {
    var before := if current != NO_REVISION && current in s.revisions then Some(s.revisions[current]) else None;
    if current != NO_REVISION && ReadCurrent in f then (s, RollbackFailed(ReadCurrent))
    else if PublishBody in f then (s, RollbackFailed(PublishBody))
    else
      var shown := s.(live := BodyOf(target));
      if current != NO_REVISION && ArchiveRead in f then (shown, RollbackFailed(ArchiveRead))
      else if Demoted(s, current).Some? && ArchiveWrite in f then (shown, RollbackFailed(ArchiveWrite))
      else
        var demoted := if Demoted(s, current).Some? then SetStatus(shown, current, Archived) else shown;
        if WriteRevision in f then (demoted, RollbackFailed(WriteRevision))
        else
          var promoted := Put(demoted, target.(status := Active, promotedAt := Some(at)));
          if WritePointer in f then (Restore(promoted, before, target, f), RollbackFailed(WritePointer))
          else (promoted.(pointer := PointerFor(target)), RolledBack(current, target.id))
  }

  // ----- Rollback and failure -----

  /** Everything a reader of statuses and pointer can see is as before. */
  ghost predicate SameRecords(s: Skill, t: Skill) {
    t.revisions == s.revisions && t.order == s.order && t.pointer == s.pointer
  }

  ghost predicate WellKeyed(s: Skill) {
    (forall id :: id in s.revisions ==> s.revisions[id].id == id && id != NO_REVISION) &&
    (forall id :: id in s.order <==> id in s.revisions) &&
    (forall i, j :: 0 <= i < j < |s.order| ==> s.order[i] != s.order[j])
  }

  lemma {:induction false} LatestFound(revisions: map<RevisionID, Revision>, order: seq<RevisionID>, status: Status)
    ensures var id := Latest(revisions, order, status);
      id != NO_REVISION ==> id in order && id in revisions && revisions[id].status == status
  {
    if order != [] {
      LatestFound(revisions, order[..|order| - 1], status);
    }
  }

  /** Latest is the last of its status in creation order: nothing with that status comes after it. */
  lemma {:induction false} LatestIsLast(revisions: map<RevisionID, Revision>, order: seq<RevisionID>, status: Status,
                                        k: nat)
    requires k < |order| && order[k] in revisions && revisions[order[k]].status == status
    requires forall i :: 0 <= i < |order| ==> order[i] != NO_REVISION
    ensures exists m :: k <= m < |order| && order[m] == Latest(revisions, order, status)
  {
    var n := |order| - 1;
    var last := order[n];
    if !(last in revisions && revisions[last].status == status) {
      assert order[..n][k] == order[k];
      LatestIsLast(revisions, order[..n], status, k);
      var m :| k <= m < n && order[..n][m] == Latest(revisions, order[..n], status);
      assert order[m] == order[..n][m];
    }
  }

  /** id is the last revision of this status in creation order. */
  predicate IsLatest(s: Skill, id: RevisionID, status: Status) {
    exists m :: 0 <= m < |s.order| && s.order[m] == id && HasStatus(s, id, status) &&
      forall k :: m < k < |s.order| ==> !HasStatus(s, s.order[k], status)
  }

  predicate HasStatus(s: Skill, id: RevisionID, status: Status) {
    id in s.revisions && s.revisions[id].status == status
  }

  lemma {:induction false} LatestUpTo(s: Skill, n: nat, status: Status) returns (m: int)
    requires WellKeyed(s) && n <= |s.order|
    ensures -1 <= m < n && forall k :: m < k < n ==> !HasStatus(s, s.order[k], status)
    ensures var id := Latest(s.revisions, s.order[..n], status);
      if m == -1 then id == NO_REVISION else id == s.order[m] && id != NO_REVISION && HasStatus(s, id, status)
  {
    if n == 0 {
      m := -1;
    } else {
      assert s.order[..n][..n - 1] == s.order[..n - 1];
      if HasStatus(s, s.order[n - 1], status) {
        m := n - 1;
      } else {
        m := LatestUpTo(s, n - 1, status);
      }
    }
  }

  /** The search finds the latest revision of the status, or the empty id exactly when there is none. */
  lemma LatestIsExact(s: Skill, status: Status)
    requires WellKeyed(s)
    ensures var id := Latest(s.revisions, s.order, status);
      if id == NO_REVISION then forall x :: x in s.revisions ==> s.revisions[x].status != status
      else IsLatest(s, id, status)
  {
    assert s.order[..|s.order|] == s.order;
    var m := LatestUpTo(s, |s.order|, status);
    if m == -1 {
      forall x | x in s.revisions ensures s.revisions[x].status != status {
        var k :| 0 <= k < |s.order| && s.order[k] == x;
        assert !HasStatus(s, s.order[k], status);
      }
    }
  }

  /**
   What a rollback is about: it restores the archived revision asked for, or the latest archived
   one, in place of the revision the pointer has, or of the latest active tombstone when it has
   none.
   */
  lemma RollbackChooses(s: Skill, wanted: RevisionID, at: Time, f: Faults)
    requires WellKeyed(s)
    ensures var r := Rollback(s, wanted, at, f).1;
      r.RolledBack? ==>
        (if wanted != NO_REVISION then r.restored == wanted && HasStatus(s, wanted, Archived)
         else IsLatest(s, r.restored, Archived)) &&
        (if s.pointer != NO_REVISION then r.previous == s.pointer
         else if r.previous == NO_REVISION then forall x :: x in s.revisions ==> s.revisions[x].status != Active
         else IsLatest(s, r.previous, Active))
  {
    LatestIsExact(s, Archived);
    LatestIsExact(s, Active);
    RollbackChangesTwo(s, wanted, at, f);
  }

  /** When its reads work, a rollback finds nothing to restore exactly when nothing suitable is archived. */
  lemma NothingToRestoreIff(s: Skill, wanted: RevisionID, at: Time, f: Faults)
    requires WellKeyed(s) && ReadRevision !in f
    ensures Rollback(s, wanted, at, f).1 == NoArchivedRevision <==>
      if wanted != NO_REVISION then !HasStatus(s, wanted, Archived)
      else forall x :: x in s.revisions ==> s.revisions[x].status != Archived
  {
    LatestIsExact(s, Archived);
  }

  /** A rollback is refused for want of a body exactly when its target is no tombstone and has none. */
  lemma BodyIsNeededIff(s: Skill, wanted: RevisionID, at: Time, f: Faults)
    requires WellKeyed(s) && wanted != NO_REVISION && HasStatus(s, wanted, Archived) && ReadRevision !in f
    ensures Rollback(s, wanted, at, f).1 == TargetWithoutSpec <==>
      s.revisions[wanted].action != Delete && s.revisions[wanted].spec.None?
  {
  }

  /** A call fails that a rollback makes before it archives anything. */
  predicate FailsBeforeArchiving(s: Skill, f: Faults) {
    ReadRevision in f || ReadPointer in f || (s.pointer == NO_REVISION && ListRevisions in f) ||
    (CurrentActive(s) != NO_REVISION && ReadCurrent in f) || PublishBody in f
  }

  /** Archiving the current revision fails. */
  predicate ArchivingFails(s: Skill, f: Faults) {
    (CurrentActive(s) != NO_REVISION && ArchiveRead in f) || (Demoted(s, CurrentActive(s)).Some? && ArchiveWrite in f)
  }

  /** The writes that put both revisions back all succeed. */
  predicate RestoringWorks(s: Skill, f: Faults) {
    RestoreTarget !in f && (Demoted(s, CurrentActive(s)).None? || RestoreCurrent !in f)
  }

  /** When a failed rollback leaves the records as they were: the condition, read off the state and the faults. */
  predicate RollbackIsUndone(s: Skill, f: Faults) {
    FailsBeforeArchiving(s, f) || ArchivingFails(s, f) ||
    if WriteRevision in f then Demoted(s, CurrentActive(s)).None? else RestoringWorks(s, f)
  }

  /**
   A failed rollback leaves every revision and the pointer as they were if and only if it failed
   before anything was demoted, or the target was written and both needed restoring writes
   succeeded after the pointer update failed.
   */
  lemma RollbackRestoresIff(s: Skill, wanted: RevisionID, at: Time, f: Faults)
    requires WellKeyed(s)
    ensures var (t, r) := Rollback(s, wanted, at, f);
      r.RollbackFailed? ==> (SameRecords(s, t) <==> RollbackIsUndone(s, f))
  {
    var id := RollbackTarget(s, wanted);
    LatestFound(s.revisions, s.order, Archived);
    LatestFound(s.revisions, s.order, Active);
    if id in s.revisions && CurrentActive(s) != id && !FailsBeforeArchiving(s, f) {
      RollbackToRestoresIff(s, s.revisions[id], at, f);
    }
  }

  /** The rollback of an archived revision that is not the current one, in a skill with keys in order. */
  ghost predicate CanRollBackTo(s: Skill, target: Revision) {
    WellKeyed(s) && target.id in s.revisions && s.revisions[target.id] == target && target.status == Archived &&
    CurrentActive(s) != target.id
  }

  lemma RollbackToRestoresIff(s: Skill, target: Revision, at: Time, f: Faults)
    requires CanRollBackTo(s, target) && !FailsBeforeArchiving(s, f)
    ensures var (t, r) := RollbackTo(s, CurrentActive(s), target, at, f);
      r.RollbackFailed? ==> (SameRecords(s, t) <==> RollbackIsUndone(s, f))
  {
    if !ArchivingFails(s, f) {
      if WriteRevision in f {
        WriteFailureShows(s, target, at, f);
      } else if WritePointer in f {
        PointerFailureLeaves(s, target, at, f);
        PointerFailureIsUndoneIff(s, RollbackTo(s, CurrentActive(s), target, at, f).0, target, at, f);
      }
    }
  }

  /** When writing the target fails, the demotion stays. */
  lemma WriteFailureShows(s: Skill, target: Revision, at: Time, f: Faults)
    requires CanRollBackTo(s, target) && !FailsBeforeArchiving(s, f) && !ArchivingFails(s, f) && WriteRevision in f
    ensures var t := RollbackTo(s, CurrentActive(s), target, at, f).0;
      SameRecords(s, t) <==> Demoted(s, CurrentActive(s)).None?
  {
    var current := CurrentActive(s);
    var t := RollbackTo(s, current, target, at, f).0;
    assert Demoted(s, current).Some? ==> t.revisions[current].status == Archived;
  }

  /** What a rollback to `target` leaves when its pointer update has failed. */
  ghost predicate LeftUnpointed(s: Skill, t: Skill, target: Revision, at: Time, f: Faults) {
    t.order == s.order && t.pointer == s.pointer && t.live == BodyOf(target) && t.revisions.Keys == s.revisions.Keys &&
    forall x :: x in s.revisions ==>
      t.revisions[x] ==
        if x == target.id && RestoreTarget in f then s.revisions[x].(status := Active, promotedAt := Some(at))
        else if x == CurrentActive(s) && RestoreCurrent in f then s.revisions[x].(status := Archived)
        else s.revisions[x]
  }

  lemma PointerFailureLeaves(s: Skill, target: Revision, at: Time, f: Faults)
    requires CanRollBackTo(s, target) && !FailsBeforeArchiving(s, f) && !ArchivingFails(s, f)
    requires WriteRevision !in f && WritePointer in f
    ensures LeftUnpointed(s, RollbackTo(s, CurrentActive(s), target, at, f).0, target, at, f)
  {
    var current := CurrentActive(s);
    var before := if current != NO_REVISION && current in s.revisions then Some(s.revisions[current]) else None;
    var shown := s.(live := BodyOf(target));
    var demoted := if Demoted(s, current).Some? then SetStatus(shown, current, Archived) else shown;
    var promoted := Put(demoted, target.(status := Active, promotedAt := Some(at)));
    RestoreLeaves(s, promoted, before, target, at, f);
  }

  lemma RestoreLeaves(s: Skill, promoted: Skill, before: Option<Revision>, target: Revision, at: Time, f: Faults)
    requires CanRollBackTo(s, target) && promoted.revisions.Keys == s.revisions.Keys
    requires promoted.order == s.order && promoted.pointer == s.pointer && promoted.live == BodyOf(target)
    requires before ==
      if CurrentActive(s) != NO_REVISION && CurrentActive(s) in s.revisions then Some(s.revisions[CurrentActive(s)])
      else None
    requires forall x :: x in s.revisions ==>
      promoted.revisions[x] ==
        if x == target.id then target.(status := Active, promotedAt := Some(at))
        else if x == CurrentActive(s) then s.revisions[x].(status := Archived)
        else s.revisions[x]
    ensures LeftUnpointed(s, Restore(promoted, before, target, f), target, at, f)
  {
  }

  lemma PointerFailureIsUndoneIff(s: Skill, t: Skill, target: Revision, at: Time, f: Faults)
    requires CanRollBackTo(s, target) && LeftUnpointed(s, t, target, at, f)
    ensures SameRecords(s, t) <==> RestoringWorks(s, f)
  {
    var current := CurrentActive(s);
    if RestoringWorks(s, f) {
      assert forall x :: x in s.revisions ==> t.revisions[x] == s.revisions[x];
      assert t.revisions == s.revisions;
    } else {
      assert RestoreTarget in f ==> t.revisions[target.id].status == Active;
      assert Demoted(s, current).Some? && RestoreCurrent in f ==> t.revisions[current].status == Archived;
    }
  }

  /** What a successful rollback of `target` over `previous` leaves. */
  ghost predicate RolledBackTo(s: Skill, t: Skill, previous: RevisionID, target: RevisionID, at: Time) {
    target in s.revisions && s.revisions[target].status == Archived &&
    t.order == s.order && t.pointer == PointerFor(s.revisions[target]) && t.live == BodyOf(s.revisions[target]) &&
    t.revisions.Keys == s.revisions.Keys &&
    forall x :: x in s.revisions ==>
      t.revisions[x] ==
        if x == target then s.revisions[x].(status := Active, promotedAt := Some(at))
        else if x == previous then s.revisions[x].(status := Archived)
        else s.revisions[x]
  }

  /** A successful rollback changes the previous active revision and the target, and no other revision. */
  lemma RollbackChangesTwo(s: Skill, wanted: RevisionID, at: Time, f: Faults)
    requires WellKeyed(s)
    ensures var (t, r) := Rollback(s, wanted, at, f);
      r.RolledBack? ==>
        r.previous == CurrentActive(s) && (wanted != NO_REVISION ==> r.restored == wanted) &&
        RolledBackTo(s, t, r.previous, r.restored, at)
  {
    LatestFound(s.revisions, s.order, Archived);
    var id := RollbackTarget(s, wanted);
    if id in s.revisions && CurrentActive(s) != id {
      RollbackToChangesTwo(s, s.revisions[id], at, f);
    }
  }

  lemma RollbackToChangesTwo(s: Skill, target: Revision, at: Time, f: Faults)
    requires CanRollBackTo(s, target)
    ensures var (t, r) := RollbackTo(s, CurrentActive(s), target, at, f);
      r.RolledBack? ==>
        r == RolledBack(CurrentActive(s), target.id) && RolledBackTo(s, t, CurrentActive(s), target.id, at)
  {
  }

  /** A concrete skill on which a rollback whose second write fails leaves the pointer on an archived revision. */
  lemma RollbackCanStrandPointer() returns (s: Skill, f: Faults)
    ensures WellKeyed(s) && s.pointer in s.revisions && s.revisions[s.pointer].status == Active
    ensures var (t, r) := Rollback(s, NO_REVISION, 5, f);
      r == RollbackFailed(WriteRevision) && t.pointer in t.revisions && t.revisions[t.pointer].status == Archived
  {
    var old1 := Revision(1, 0, Create, Some(10), Archived, Some(1), None);
    var new2 := Revision(2, 1, Update, Some(20), Active, Some(2), None);
    s := Skill(map[1 := old1, 2 := new2], [1, 2], 2, Some(20));
    f := {WriteRevision};
    assert s.order[..1] == [1];
    assert Latest(s.revisions, s.order, Archived) == Latest(s.revisions, [1], Archived) == 1;
  }
}
