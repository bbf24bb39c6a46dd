/**
 What a failing storage call leaves behind (evolution/approval_service.go:198-232, 312-427;
 evolution/worker.go:935-1014): for each operation the exact condition on the state and the
 faults, both known before the call, under which a skill stays consistent.
 */
module GovernanceFaults {
  import opened Prelude
  import opened SkillRevisions
  import opened GovernanceRuns

  // ----- Decisions and failure -----

  /** Whether a decision with these faults reaches the published body. */
  predicate ReachesPublisher(s: Skill, rev: Revision, approve: bool, f: Faults) {
    approve && !Stale(s, rev) && ReadRevision !in f && !(rev.action == Update && ReadPointer in f) && PublishBody !in f
  }

  predicate ArchiveFails(s: Skill, f: Faults) {
    ArchiveReadPointer in f || (s.pointer != NO_REVISION && (ArchiveRead in f || ArchiveWrite in f))
  }

  /** When a failed decision leaves the skill consistent, read off the state and the faults beforehand. */
  predicate DecisionSurvives(s: Skill, rev: Revision, approve: bool, f: Faults) {
    !ReachesPublisher(s, rev, approve, f) ||
    (if rev.action == Delete then s.pointer == NO_REVISION || !(ArchiveFails(s, f) || WritePointer in f)
     else ArchiveFails(s, f) && rev.spec == s.live)
  }

  /**
   Decide does not compensate: once the body is out, a failure leaves the skill consistent if and
   only if it deletes and either nothing was active or only the last write failed, or it failed to
   archive and the body it published was the live one. Every other outcome keeps it consistent,
   whatever calls have failed on the way.
   */
  lemma DecideSurvivesIff(s: Skill, id: RevisionID, approve: bool, at: Time, f: Faults)
    requires Consistent(s)
    ensures var (t, r) := Decide(s, id, approve, at, f);
      if r == DecideFailed && id in s.revisions && s.revisions[id].status == PendingApproval
      then Consistent(t) <==> DecisionSurvives(s, s.revisions[id], approve, f)
      else Consistent(t)
  {
    if id in s.revisions && s.revisions[id].status == PendingApproval {
      if Decide(s, id, approve, at, f).1 == DecideFailed {
        DecideFailureSurvivesIff(s, id, approve, at, f);
      } else {
        FinishedDecisionIs(s, id, approve, at, f);
        DecideKeepsConsistent(s, id, approve, at);
      }
    }
  }

  lemma DecideFailureSurvivesIff(s: Skill, id: RevisionID, approve: bool, at: Time, f: Faults)
    requires Consistent(s) && id in s.revisions && s.revisions[id].status == PendingApproval
    requires Decide(s, id, approve, at, f).1 == DecideFailed
    ensures Consistent(Decide(s, id, approve, at, f).0) <==> DecisionSurvives(s, s.revisions[id], approve, f)
  {
  }

  /** A decision that does not fail changes nothing, or does what it does with working storage. */
  lemma FinishedDecisionIs(s: Skill, id: RevisionID, approve: bool, at: Time, f: Faults)
    requires Decide(s, id, approve, at, f).1 != DecideFailed
    ensures Decide(s, id, approve, at, f).0 == s || Decide(s, id, approve, at, f) == Decide(s, id, approve, at, {})
  {
  }

  /**
   A concrete approval whose last step fails: the new body is out, and the pointer is still on the archived
   revision.
   */
  lemma DecideCanBreakTheSkill() returns (s: Skill, id: RevisionID, f: Faults)
    ensures Consistent(s) && id in s.revisions && s.revisions[id].status == PendingApproval
    ensures var (t, r) := Decide(s, id, true, 5, f);
      r == DecideFailed && !Consistent(t) &&
      t.live == s.revisions[id].spec && t.pointer in t.revisions && t.revisions[t.pointer].status == Archived
  {
    var active := Revision(1, NO_REVISION, Create, Some(10), Active, Some(1), None);
    var update := Revision(2, 1, Update, Some(20), PendingApproval, None, None);
    s := Skill(map[1 := active, 2 := update], [1, 2], 1, Some(10));
    id, f := 2, {WritePointer};
    var t := Decide(s, id, true, 5, f).0;
    assert t.revisions[1].status == Archived && t.pointer == 1;
  }

  /** When the revision cannot be written, no decision is made: the revision stays as it was. */
  lemma UnwrittenDecisionIsNone(s: Skill, id: RevisionID, approve: bool, at: Time, f: Faults)
    requires WellKeyed(s) && id in s.revisions && s.revisions[id].status == PendingApproval && WriteRevision in f
    ensures var (t, r) := Decide(s, id, approve, at, f);
      r != Decided && t.revisions.Keys == s.revisions.Keys &&
      (s.pointer != id ==> t.revisions[id] == s.revisions[id]) &&
      (!approve || (s.revisions[id].action == Update && s.pointer != s.revisions[id].parent) ==> t == s)
  {
  }

  /** A revision without a body, other than a tombstone, leaves the published body alone. */
  lemma NothingToPublish(s: Skill, rev: Revision, at: Time, f: Faults)
    requires rev.action != Delete && rev.spec.None?
    ensures ApproveRevision(s, rev, f).0.live == s.live && PublishRevision(s, rev, at, f).0.live == s.live
  {
  }

  /** Archiving leaves a missing or already archived revision alone, without a write that could fail. */
  lemma NothingToArchive(s: Skill, replacing: RevisionID, f: Faults)
    requires s.pointer in s.revisions ==> s.revisions[s.pointer].status == Archived
    ensures ArchiveCurrent(s, replacing, f).0 == s
    ensures ArchiveReadPointer !in f && ArchiveRead !in f ==> ArchiveCurrent(s, replacing, f).1
  {
  }

  // ----- Rollbacks and failure -----

  /** When a failed rollback to `target` leaves the skill consistent, read off the state and the faults beforehand. */
  predicate RollbackSurvives(s: Skill, target: Revision, f: Faults) {
    FailsBeforeArchiving(s, f) ||
    (BodyOf(target) == s.live &&
     (s.pointer == NO_REVISION || ArchivingFails(s, f) || (WriteRevision !in f && RestoringWorks(s, f))))
  }

  /**
   A failed rollback leaves the skill consistent, the published body included, if and only if it
   failed before the body was out, or the target's body is the live one and nothing was active,
   or nothing was demoted, or what was written has been written back. Every other outcome keeps
   it consistent, whatever calls would have failed.
   */
  lemma RollbackSurvivesIff(s: Skill, wanted: RevisionID, at: Time, f: Faults)
    requires Consistent(s)
    ensures var (t, r) := Rollback(s, wanted, at, f);
      if r.RollbackFailed? && RollbackTarget(s, wanted) in s.revisions
      then Consistent(t) <==> RollbackSurvives(s, s.revisions[RollbackTarget(s, wanted)], f)
      else Consistent(t)
  {
    if !Rollback(s, wanted, at, f).1.RollbackFailed? {
      FinishedRollbackIs(s, wanted, at, f);
      RollbackKeepsConsistent(s, wanted, at);
    } else if RollbackTarget(s, wanted) in s.revisions {
      RollbackFailureSurvivesIff(s, wanted, at, f);
    }
  }

  /** A rollback that does not fail does what it does with working storage. */
  lemma FinishedRollbackIs(s: Skill, wanted: RevisionID, at: Time, f: Faults)
    requires !Rollback(s, wanted, at, f).1.RollbackFailed?
    ensures Rollback(s, wanted, at, f) == Rollback(s, wanted, at, {}) || Rollback(s, wanted, at, f).0 == s
  {
  }

  lemma RollbackFailureSurvivesIff(s: Skill, wanted: RevisionID, at: Time, f: Faults)
    requires Consistent(s) && RollbackTarget(s, wanted) in s.revisions && Rollback(s, wanted, at, f).1.RollbackFailed?
    ensures Consistent(Rollback(s, wanted, at, f).0) <==>
      RollbackSurvives(s, s.revisions[RollbackTarget(s, wanted)], f)
  {
    var id := RollbackTarget(s, wanted);
    LatestFound(s.revisions, s.order, Archived);
    LatestFound(s.revisions, s.order, Active);
    if !FailsBeforeArchiving(s, f) && CurrentActive(s) != id {
      var target := s.revisions[id];
      if ArchivingFails(s, f) {
      } else if WriteRevision in f {
        UnwrittenSurvivesIff(s, target, at, f);
      } else if WritePointer in f {
        PointerFailureLeaves(s, target, at, f);
        UnpointedSurvivesIff(s, RollbackTo(s, CurrentActive(s), target, at, f).0, target, at, f);
      }
    }
  }

  lemma UnwrittenSurvivesIff(s: Skill, target: Revision, at: Time, f: Faults)
    requires Consistent(s) && CanRollBackTo(s, target)
    requires !FailsBeforeArchiving(s, f) && !ArchivingFails(s, f) && WriteRevision in f
    ensures Consistent(RollbackTo(s, CurrentActive(s), target, at, f).0) <==>
      BodyOf(target) == s.live && s.pointer == NO_REVISION
  {
    var t := RollbackTo(s, CurrentActive(s), target, at, f).0;
    LatestFound(s.revisions, s.order, Active);
    if s.pointer != NO_REVISION {
      assert t.revisions[s.pointer].status == Archived;
    }
  }

  lemma UnpointedSurvivesIff(s: Skill, t: Skill, target: Revision, at: Time, f: Faults)
    requires Consistent(s) && CanRollBackTo(s, target) && LeftUnpointed(s, t, target, at, f)
    ensures Consistent(t) <==> BodyOf(target) == s.live && (s.pointer == NO_REVISION || RestoringWorks(s, f))
  {
    LatestFound(s.revisions, s.order, Active);
    if s.pointer != NO_REVISION {
      assert Demoted(s, s.pointer).Some?;
      assert t.revisions[target.id].status == Active <==> RestoreTarget in f;
      assert t.revisions[s.pointer].status == Archived <==> RestoreCurrent in f;
    }
  }

  /** Revision 2 is active, and a rollback would restore revision 1. */
  lemma UpdatedSkill() returns (s: Skill)
    ensures Consistent(s) && s.pointer == 2 && s.live == Some(20) && RollbackTarget(s, NO_REVISION) == 1
    ensures 1 in s.revisions && CanRollBackTo(s, s.revisions[1]) && BodyOf(s.revisions[1]) == Some(10)
  {
    var old1 := Revision(1, NO_REVISION, Create, Some(10), Archived, Some(1), None);
    var new2 := Revision(2, 1, Update, Some(20), Active, Some(2), None);
    s := Skill(map[1 := old1, 2 := new2], [1, 2], 2, Some(20));
    assert s.order[..1] == [1];
    assert Latest(s.revisions, s.order, Archived) == Latest(s.revisions, [1], Archived) == 1;
  }

  /** A concrete rollback whose pointer update fails: the records are as before, and the body is the target's. */
  lemma UndoneRollbackShowsTheTarget() returns (s: Skill, f: Faults)
    ensures Consistent(s)
    ensures var (t, r) := Rollback(s, NO_REVISION, 5, f);
      r == RollbackFailed(WritePointer) && SameRecords(s, t) && t.live != s.live && !Consistent(t)
  {
    s := UpdatedSkill();
    f := {WritePointer};
    PointerFailureLeaves(s, s.revisions[1], 5, f);
    RollbackRestoresIff(s, NO_REVISION, 5, f);
    RollbackSurvivesIff(s, NO_REVISION, 5, f);
  }

  // ----- Publications and failure -----

  /** Whether a publication with these faults reaches the published body. */
  predicate PublishesBody(s: Skill, rev: Revision, f: Faults) {
    !(rev.action == Update && ReadPointer in f) && !Stale(s, rev) && PublishBody !in f
  }

  /** When a publication leaves the skill consistent, read off the state and the faults beforehand. */
  predicate PublishSurvives(s: Skill, rev: Revision, f: Faults) {
    !PublishesBody(s, rev, f) ||
    (if rev.action == Delete then s.pointer == NO_REVISION || !(ArchiveFails(s, f) || WritePointer in f)
     else if ArchiveFails(s, f) then WriteRevision in f && rev.spec == s.live
     else WriteRevision !in f && WritePointer !in f)
  }

  /**
   The worker's publication, which goes on after a failed write of the revision and does not
   report a failed move of the pointer, leaves the skill consistent if and only if it did not
   reach the body, or it deletes and either nothing was active or archiving and the pointer
   worked, or both its writes and the archiving worked, or the failures cancel out.
   */
  lemma PublishSurvivesIff(s: Skill, rev: Revision, at: Time, f: Faults)
    requires Consistent(s) && rev.id in s.revisions && s.revisions[rev.id] == rev && rev.status == Pending
    ensures Consistent(PublishRevision(s, rev, at, f).0) <==> PublishSurvives(s, rev, f)
  {
    assert s.pointer != rev.id;
    if PublishesBody(s, rev, f) {
      PublishedShape(s, rev, at, f);
      PublishedSurvivesIff(s, PublishRevision(s, rev, at, f).0, rev, at, f);
    } else if Stale(s, rev) && PublishRevision(s, rev, at, f).0 != s {
      PublishRefuses(s, rev, at);
      RefusesConsistent(s, PublishRevision(s, rev, at, f).0, rev.id);
    }
  }

  /** A stale revision whose rejection cannot be written stays as it was. */
  lemma UnwrittenRejectionIsNone(s: Skill, rev: Revision, at: Time, f: Faults)
    requires Stale(s, rev) && WriteRevision in f
    ensures PublishRevision(s, rev, at, f) == (s, false)
  {
  }

  /** What a publication leaves that has reached the body. */
  ghost predicate LeftPublished(s: Skill, t: Skill, rev: Revision, at: Time, f: Faults) {
    t.order == s.order && t.live == BodyOf(rev) && t.revisions.Keys == s.revisions.Keys &&
    t.pointer == (if ArchiveFails(s, f) || WritePointer in f then s.pointer else PointerFor(rev)) &&
    forall x :: x in s.revisions ==>
      t.revisions[x] ==
        if x == rev.id && WriteRevision !in f then rev.(status := Active, promotedAt := Some(at))
        else if x == s.pointer && !ArchiveFails(s, f) then s.revisions[x].(status := Archived)
        else s.revisions[x]
  }

  lemma PublishedShape(s: Skill, rev: Revision, at: Time, f: Faults)
    requires Consistent(s) && rev.id in s.revisions && s.revisions[rev.id] == rev && rev.status == Pending
    requires PublishesBody(s, rev, f)
    ensures LeftPublished(s, PublishRevision(s, rev, at, f).0, rev, at, f)
  {
    assert s.pointer != rev.id;
    var shown := s.(live := BodyOf(rev));
    var written := if WriteRevision in f then shown else Put(shown, rev.(status := Active, promotedAt := Some(at)));
    assert written.pointer == s.pointer && written.order == s.order && written.revisions.Keys == s.revisions.Keys;
    ArchiveLeaves(written, rev.id, f);
  }

  lemma ArchiveLeaves(s: Skill, replacing: RevisionID, f: Faults)
    requires s.pointer != NO_REVISION ==>
      s.pointer in s.revisions && s.revisions[s.pointer].id == s.pointer && s.revisions[s.pointer].status != Archived
    requires s.pointer != NO_REVISION ==> s.pointer != replacing
    requires s.pointer == NO_REVISION ==> NO_REVISION !in s.revisions
    ensures var (t, ok) := ArchiveCurrent(s, replacing, f);
      ok == !ArchiveFails(s, f) && t == s.(revisions := t.revisions) && t.revisions.Keys == s.revisions.Keys &&
      forall x :: x in s.revisions ==>
        t.revisions[x] == if x == s.pointer && ok then s.revisions[x].(status := Archived) else s.revisions[x]
  {
  }

  lemma PublishedSurvivesIff(s: Skill, t: Skill, rev: Revision, at: Time, f: Faults)
    requires Consistent(s) && rev.id in s.revisions && s.revisions[rev.id] == rev && rev.status == Pending
    requires PublishesBody(s, rev, f) && LeftPublished(s, t, rev, at, f)
    ensures Consistent(t) <==> PublishSurvives(s, rev, f)
  {
    assert s.pointer != rev.id;
    assert t.revisions[rev.id].status == Active <==> WriteRevision !in f;
    assert forall x :: x in s.revisions ==> SameText(s.revisions[x], t.revisions[x]);
    if s.pointer != NO_REVISION {
      assert t.revisions[s.pointer].status == Archived <==> !ArchiveFails(s, f);
    }
  }
}
