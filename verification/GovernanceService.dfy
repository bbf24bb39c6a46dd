/**
 The approval service and the worker's publication step as they run: storage calls made one
 after the other on a store, a pointer and a publisher, each of which may fail
 (evolution/approval_service.go:107-232, 295-427, 555-640; evolution/promotion.go:86-125;
 evolution/worker.go:935-1056). Every method computes the state change of SkillRevisions.
 */
module GovernanceService {
  import opened Prelude
  import opened SkillRevisions
  import opened GovernanceRuns
  import opened GovernanceFaults

  /** The candidate store of one skill. */
  class CandidateStore {
    var revisions: map<RevisionID, Revision>
    var order: seq<RevisionID>

    constructor ()
      ensures revisions == map[] && order == []
    {
      revisions, order := map[], [];
    }

    method WriteRevision(rev: Revision, fails: bool) returns (ok: bool)
      modifies this
      ensures ok == !fails
      ensures revisions == if fails then old(revisions) else old(revisions)[rev.id := rev]
      ensures order == if fails || rev.id in old(revisions) then old(order) else old(order) + [rev.id]
    {
      if fails { return false; }
      if rev.id !in revisions { order := order + [rev.id]; }
      revisions := revisions[rev.id := rev];
      return true;
    }

    /** An absent revision is None, the store's not-exist error. */
    method ReadRevision(id: RevisionID, fails: bool) returns (r: Result<Option<Revision>, ()>)
      ensures r == if fails then Err(()) else Ok(if id in revisions then Some(revisions[id]) else None)
    {
      if fails { return Err(()); }
      return Ok(if id in revisions then Some(revisions[id]) else None);
    }
  }

  class ActivePointer {
    var active: RevisionID

    constructor ()
      ensures active == NO_REVISION
    {
      active := NO_REVISION;
    }

    method Update(id: RevisionID, fails: bool) returns (ok: bool)
      modifies this
      ensures ok == !fails && active == if fails then old(active) else id
    {
      if !fails { active := id; }
      return !fails;
    }
  }

  class Publisher {
    var live: Option<Spec>

    constructor ()
      ensures live == None
    {
      live := None;
    }

    method Update(body: Option<Spec>, fails: bool) returns (ok: bool)
      modifies this
      ensures ok == !fails && live == if fails then old(live) else body
    {
      if !fails { live := body; }
      return !fails;
    }
  }

  class ApprovalService {
    const store: CandidateStore
    const pointer: ActivePointer
    const publisher: Publisher

    constructor (store: CandidateStore, pointer: ActivePointer, publisher: Publisher)
      ensures this.store == store && this.pointer == pointer && this.publisher == publisher
    {
      this.store, this.pointer, this.publisher := store, pointer, publisher;
    }

    ghost function State(): Skill
      reads store, pointer, publisher
    {
      Skill(store.revisions, store.order, pointer.active, publisher.live)
    }

    /** rev is stored as the gates left it. */
    ghost predicate Gated(rev: Revision)
      reads store
    {
      rev.id in store.revisions && store.revisions[rev.id] == rev && rev.status == Pending
    }

    method ArchiveCurrentActiveRevision(replacing: RevisionID, f: Faults) returns (ok: bool)
      modifies store
      ensures (State(), ok) == SkillRevisions.ArchiveCurrent(old(State()), replacing, f)
    {
      if ArchiveReadPointer in f { return false; }
      var currentID := pointer.active;
      if currentID == NO_REVISION || currentID == replacing { return true; }
      var read := store.ReadRevision(currentID, ArchiveRead in f);
      if read.Err? { return false; }
      if read.value.None? { return true; }
      var current := read.value.value;
      if current.status == Archived { return true; }
      current := current.(status := Archived);
      ok := store.WriteRevision(current, ArchiveWrite in f);
    }

    method ApproveRevision(rev: Revision, f: Faults) returns (ok: bool)
      modifies store, pointer, publisher
      ensures (State(), ok) == SkillRevisions.ApproveRevision(old(State()), rev, f)
    {
      if rev.action == Delete {
        var published := publisher.Update(None, PublishBody in f);
        if !published { return false; }
        var archived := ArchiveCurrentActiveRevision(rev.id, f);
        if !archived { return false; }
        ok := pointer.Update(NO_REVISION, WritePointer in f);
      } else {
        if rev.spec.Some? {
          var published := publisher.Update(rev.spec, PublishBody in f);
          if !published { return false; }
        }
        var archived := ArchiveCurrentActiveRevision(rev.id, f);
        if !archived { return false; }
        ok := pointer.Update(rev.id, WritePointer in f);
      }
    }

    method RejectStaleRevision(rev: Revision, f: Faults) returns (r: DecideResult)
      modifies store
      ensures r == StaleParent
      ensures State() ==
        if WriteRevision in f then old(State())
        else Put(old(State()), rev.(status := Rejected, approved := Some(false)))
    {
      var rejected := rev.(approved := Some(false));
      rejected := rejected.(status := Rejected);
      var _ := store.WriteRevision(rejected, WriteRevision in f);
      return StaleParent;
    }

    method Decide(id: RevisionID, approve: bool, at: Time, f: Faults) returns (r: DecideResult)
      modifies store, pointer, publisher
      ensures (State(), r) == SkillRevisions.Decide(old(State()), id, approve, at, f)
      ensures (f == {} || r != DecideFailed) && old(Consistent(State())) ==> Consistent(State())
    {
      if Consistent(State()) {
        DecideKeepsConsistent(State(), id, approve, at);
        DecideSurvivesIff(State(), id, approve, at, f);
      }
      var read := store.ReadRevision(id, ReadRevision in f);
      if read.Err? { return DecideFailed; }
      if read.value.None? { return NotFound; }
      var rev := read.value.value;
      if rev.status != PendingApproval { return AlreadyDecided; }
      if approve && rev.action == Update {
        if ReadPointer in f { return DecideFailed; }
        if pointer.active != rev.parent {
          r := RejectStaleRevision(rev, f);
          return;
        }
      }
      rev := rev.(approved := Some(approve));
      if approve {
        var promoted := ApproveRevision(rev, f);
        if !promoted { return DecideFailed; }
        rev := rev.(status := Active, promotedAt := Some(at));
      } else {
        rev := rev.(status := Rejected);
      }
      var written := store.WriteRevision(rev, WriteRevision in f);
      return if written then Decided else DecideFailed;
    }

    /** The worker's publishRevision, for a revision that passed its gates. */
    method PublishRevision(rev: Revision, at: Time, f: Faults) returns (ok: bool)
      modifies store, pointer, publisher
      ensures (State(), ok) == SkillRevisions.PublishRevision(old(State()), rev, at, f)
      ensures old(Consistent(State()) && Gated(rev)) ==>
        (Consistent(State()) <==> PublishSurvives(old(State()), rev, f))
    {
      if Consistent(State()) && Gated(rev) {
        PublishSurvivesIff(State(), rev, at, f);
      }
      if rev.action == Update {
        if ReadPointer in f { return false; }
        if pointer.active != rev.parent {
          var _ := store.WriteRevision(rev.(status := Rejected), WriteRevision in f);
          return false;
        }
      }
      if rev.action != Delete && rev.spec.None? { return false; }
      var published := publisher.Update(if rev.action == Delete then None else rev.spec, PublishBody in f);
      if !published { return false; }
      var active := rev.(status := Active);
      active := active.(promotedAt := Some(at));
      var _ := store.WriteRevision(active, WriteRevision in f);
      var archived := ArchiveCurrentActiveRevision(rev.id, f);
      if !archived { return false; }
      var _ := pointer.Update(if rev.action == Delete then NO_REVISION else rev.id, WritePointer in f);
      return true;
    }

    /** Walks the creation order backwards, as both searches of the service do. */
    method FindLatest(status: Status) returns (id: RevisionID)
      ensures id == Latest(store.revisions, store.order, status)
    {
      var i := |store.order|;
      assert store.order[..i] == store.order;
      while i > 0
        invariant 0 <= i <= |store.order|
        invariant Latest(store.revisions, store.order, status) == Latest(store.revisions, store.order[..i], status)
      {
        i := i - 1;
        assert store.order[..i + 1][..i] == store.order[..i];
        var candidate := store.order[i];
        if candidate in store.revisions && store.revisions[candidate].status == status {
          return candidate;
        }
      }
      return NO_REVISION;
    }

    method SelectRollbackTarget(wanted: RevisionID) returns (id: RevisionID)
      ensures id == RollbackTarget(State(), wanted)
    {
      if wanted != NO_REVISION {
        var found := wanted in store.revisions && store.revisions[wanted].status == Archived;
        return if found then wanted else NO_REVISION;
      }
      id := FindLatest(Archived);
    }

    method CurrentActiveRevisionID() returns (id: RevisionID)
      ensures id == CurrentActive(State())
    {
      if pointer.active != NO_REVISION { return pointer.active; }
      id := FindLatest(Active);
    }

    /** archiveActive: like the promotion's archiving, for a revision that is given. */
    method ArchiveActive(current: RevisionID, f: Faults) returns (failed: Option<Op>)
      requires current != NO_REVISION
      modifies store
      ensures failed == if ArchiveRead in f then Some(ArchiveRead)
                        else if Demoted(old(State()), current).Some? && ArchiveWrite in f then Some(ArchiveWrite)
                        else None
      ensures State() ==
        if failed.None? && Demoted(old(State()), current).Some? then SetStatus(old(State()), current, Archived)
        else old(State())
    {
      var read := store.ReadRevision(current, ArchiveRead in f);
      if read.Err? { return Some(ArchiveRead); }
      if read.value.None? || read.value.value.status == Archived { return None; }
      var written := store.WriteRevision(read.value.value.(status := Archived), ArchiveWrite in f);
      return if written then None else Some(ArchiveWrite);
    }

    method RestoreRollbackRevisions(current: Option<Revision>, target: Revision, f: Faults)
      modifies store
      ensures State() == Restore(old(State()), current, target, f)
    {
      if current.Some? {
        var _ := store.WriteRevision(current.value, RestoreCurrent in f);
      }
      var _ := store.WriteRevision(target, RestoreTarget in f);
    }

    method Rollback(wanted: RevisionID, at: Time, f: Faults) returns (r: RollbackResult)
      modifies store, pointer, publisher
      ensures (State(), r) == SkillRevisions.Rollback(old(State()), wanted, at, f)
      ensures (f == {} || !r.RollbackFailed?) && old(Consistent(State())) ==> Consistent(State())
    {
      if Consistent(State()) {
        RollbackKeepsConsistent(State(), wanted, at);
        RollbackSurvivesIff(State(), wanted, at, f);
      }
      if ReadRevision in f { return RollbackFailed(ReadRevision); }
      var id := SelectRollbackTarget(wanted);
      if id == NO_REVISION || id !in store.revisions { return NoArchivedRevision; }
      var target := store.revisions[id];
      if target.action != Delete && target.spec.None? { return TargetWithoutSpec; }
      if ReadPointer in f { return RollbackFailed(ReadPointer); }
      if pointer.active == NO_REVISION && ListRevisions in f { return RollbackFailed(ListRevisions); }
      var current := CurrentActiveRevisionID();
      if current == id { return TargetAlreadyActive; }
      r := RollbackFrom(current, target, at, f);
    }

    /** The rest of Rollback, from the first write on. */
    method RollbackFrom(current: RevisionID, target: Revision, at: Time, f: Faults) returns (r: RollbackResult)
      modifies store, pointer, publisher
      ensures (State(), r) == RollbackTo(old(State()), current, target, at, f)
    {
      var before: Option<Revision> := None;
      if current != NO_REVISION {
        var read := store.ReadRevision(current, ReadCurrent in f);
        if read.Err? { return RollbackFailed(ReadCurrent); }
        before := read.value;
      }
      var published := publisher.Update(BodyOf(target), PublishBody in f);
      if !published { return RollbackFailed(PublishBody); }
      if current != NO_REVISION {
        var failed := ArchiveActive(current, f);
        if failed.Some? { return RollbackFailed(failed.value); }
      }
      var promoted := target.(status := Active, promotedAt := Some(at));
      var written := store.WriteRevision(promoted, WriteRevision in f);
      if !written { return RollbackFailed(WriteRevision); }
      var moved := pointer.Update(PointerFor(target), WritePointer in f);
      if !moved {
        RestoreRollbackRevisions(before, target, f);
        return RollbackFailed(WritePointer);
      }
      return RolledBack(current, target.id);
    }
  }
}
