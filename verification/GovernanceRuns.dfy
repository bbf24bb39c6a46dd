/**
 Revision governance over whole runs: drafting, filing, publishing, deciding and rolling back,
 in any order, on one skill with working storage (evolution/submission.go:257-318,
 evolution/worker.go:727-1056, evolution/approval_service.go:107-385). The per-skill lock
 makes Publish, Decide and Rollback atomic; drafting and filing happen outside it.
 */
module GovernanceRuns {
  import opened Prelude
  import opened SkillRevisions

  /** One change of the active pointer: a promotion of `rev`, or a rollback that restored it. */
  datatype Move = Move(rollback: bool, rev: Revision, from: RevisionID, to: RevisionID)

  datatype World = World(
    skill: Skill,
    drafts: map<RevisionID, Revision>,  // built by a worker or a submission, not yet written
    gated: map<RevisionID, Revision>,   // written with gates passed, held in a worker's memory
    moves: seq<Move>)

  datatype Event =
    | Draft(id: RevisionID, action: Action, spec: Spec)
    | File(id: RevisionID, verdict: Status)
    | PublishGated(id: RevisionID, at: Time)
    | DecidePending(id: RevisionID, approve: bool, at: Time)
    | RollBack(wanted: RevisionID, at: Time)

  /** The verdict Pending means that every gate passed; the others are final or wait for a decision. */
  predicate Enabled(w: World, e: Event) {
    match e
    case Draft(id, _, _) => id != NO_REVISION && id !in w.skill.revisions && id !in w.drafts
    case File(id, verdict) => id in w.drafts && verdict in {Pending, Rejected, PendingEval, PendingApproval}
    case PublishGated(id, _) => id in w.gated
    case DecidePending(_, _, _) => true
    case RollBack(_, _) => true
  }

  /** populateParentRevisionID and validateSubmissionParent: an update sits on the active revision. */
  function NewRevision(s: Skill, id: RevisionID, action: Action, spec: Spec): Revision {
    Revision(id, if action == Update then s.pointer else NO_REVISION, action,
             if action == Delete then None else Some(spec), Pending, None, None)
  }

  function Apply(w: World, e: Event): World
    requires Enabled(w, e)
  {
    match e
    case Draft(id, action, spec) => w.(drafts := w.drafts[id := NewRevision(w.skill, id, action, spec)])
    case File(id, verdict) =>
      var rev := w.drafts[id].(status := verdict);
      w.(skill := Put(w.skill, rev), drafts := w.drafts - {id},
         gated := if verdict == Pending then w.gated[id := rev] else w.gated)
    case PublishGated(id, at) =>
      var rev := w.gated[id];
      var after := w.(skill := Publish(w.skill, rev, at), gated := w.gated - {id});
      if Stale(w.skill, rev) then after else Moved(after, false, rev, w.skill.pointer)
    case DecidePending(id, approve, at) =>
      var (s, r) := Decide(w.skill, id, approve, at, {});
      if r == Decided && approve then Moved(w.(skill := s), false, w.skill.revisions[id], w.skill.pointer)
      else w.(skill := s)
    case RollBack(wanted, at) =>
      var (s, r) := Rollback(w.skill, wanted, at, {});
      if r.RolledBack? && r.restored in w.skill.revisions
      then Moved(w.(skill := s), true, w.skill.revisions[r.restored], w.skill.pointer)
      else w.(skill := s)
  }

  /** Records the pointer move that ended at the present skill. */
  function Moved(w: World, rollback: bool, rev: Revision, from: RevisionID): World {
    w.(moves := w.moves + [Move(rollback, rev, from, w.skill.pointer)])
  }

  ghost predicate Initial(w: World) {
    w == World(Skill(map[], [], NO_REVISION, None), map[], map[], [])
  }

  ghost predicate StepAt(run: seq<World>, events: seq<Event>, i: nat)
    requires |run| == |events| + 1 && i < |events|
  {
    Enabled(run[i], events[i]) && run[i + 1] == Apply(run[i], events[i])
  }

  ghost predicate IsRun(run: seq<World>, events: seq<Event>) {
    |run| == |events| + 1 && Initial(run[0]) && forall i :: 0 <= i < |events| ==> StepAt(run, events, i)
  }

  // ----- Consistency of one skill -----

  /** The revision with the active id is the one active revision that is not a tombstone, and it is what is live. */
  ghost predicate Consistent(s: Skill) {
    WellKeyed(s) &&
    (forall id :: id in s.revisions ==> (s.revisions[id].action != Delete ==> s.revisions[id].spec.Some?)) &&
    (s.pointer != NO_REVISION ==> s.pointer in s.revisions && s.revisions[s.pointer].action != Delete) &&
    (forall id :: id in s.revisions && s.revisions[id].action != Delete ==>
     (s.revisions[id].status == Active <==> id == s.pointer)) &&
    s.live == if s.pointer == NO_REVISION then None else s.revisions[s.pointer].spec
  }

  /** The lock-free parts of the world agree with the store. */
  ghost predicate Prepared(w: World) {
    (forall id :: id in w.drafts ==> id != NO_REVISION && id !in w.skill.revisions && Drafted(w.drafts[id], id)) &&
    (forall id :: id in w.gated ==>
     id in w.skill.revisions && w.skill.revisions[id] == w.gated[id] && Drafted(w.gated[id], id))
  }

  /** A tombstone has no body, and every other revision has one. */
  predicate Bodied(rev: Revision) {
    rev.action == Delete <==> rev.spec.None?
  }

  ghost predicate Drafted(rev: Revision, id: RevisionID) {
    rev.id == id && rev.status == Pending && Bodied(rev) &&
    (rev.action != Update ==> rev.parent == NO_REVISION)
  }

  // ----- What one operation does to the records -----

  /** Everything about a revision that is fixed when it is first written. */
  ghost predicate SameText(a: Revision, b: Revision) {
    a.id == b.id && a.parent == b.parent && a.action == b.action && a.spec == b.spec
  }

  /** `id` takes over from `previous`: pointer and published body follow it, no other status moves. */
  ghost predicate Replaces(s: Skill, t: Skill, id: RevisionID, previous: RevisionID) {
    id in s.revisions && previous != id && t.revisions.Keys == s.revisions.Keys && t.order == s.order &&
    t.pointer == PointerFor(s.revisions[id]) && t.live == BodyOf(s.revisions[id]) &&
    forall x :: x in s.revisions ==>
      if x == id then SameText(s.revisions[x], t.revisions[x]) && t.revisions[x].status == Active
      else t.revisions[x] == if x == previous then s.revisions[x].(status := Archived) else s.revisions[x]
  }

  /** `id`, so far undecided, is rejected and nothing else happens. */
  ghost predicate Refuses(s: Skill, t: Skill, id: RevisionID) {
    id in s.revisions && s.revisions[id].status in {Pending, PendingApproval} &&
    t.revisions.Keys == s.revisions.Keys && t.order == s.order && t.pointer == s.pointer && t.live == s.live &&
    SameText(s.revisions[id], t.revisions[id]) && t.revisions[id].status == Rejected &&
    forall x :: x in s.revisions && x != id ==> t.revisions[x] == s.revisions[x]
  }

  /** A new revision, not active, enters the store. */
  ghost predicate Adds(s: Skill, t: Skill, rev: Revision) {
    rev.id !in s.revisions && rev.status in {Pending, Rejected, PendingEval, PendingApproval} &&
    t.revisions == s.revisions[rev.id := rev] && t.order == s.order + [rev.id] &&
    t.pointer == s.pointer && t.live == s.live
  }

  /** The revision a promotion of `id` demotes: the one with the active id, or nothing. */
  lemma PromotionShape(s: Skill, id: RevisionID)
    requires Consistent(s) && id in s.revisions && s.revisions[id].status in {Pending, PendingApproval}
    ensures s.pointer != id
    ensures var (t, ok) := ArchiveCurrent(s, id, {});
      ok && t.revisions.Keys == s.revisions.Keys && t.order == s.order && t.pointer == s.pointer && t.live == s.live &&
      (forall x :: x in s.revisions ==>
        t.revisions[x] == if x == s.pointer then s.revisions[x].(status := Archived) else s.revisions[x])
  {
  }

  lemma PublishPromotes(s: Skill, rev: Revision, at: Time)
    requires Consistent(s) && rev.id in s.revisions && rev == s.revisions[rev.id] && rev.status == Pending
    requires !Stale(s, rev)
    ensures Replaces(s, Publish(s, rev, at), rev.id, s.pointer)
  {
    var written := Put(s.(live := BodyOf(rev)), rev.(status := Active, promotedAt := Some(at)));
    assert written.pointer == s.pointer && written.pointer != rev.id;
  }

  lemma PublishRefuses(s: Skill, rev: Revision, at: Time)
    requires rev.id in s.revisions && rev == s.revisions[rev.id] && rev.status == Pending && Stale(s, rev)
    ensures Refuses(s, Publish(s, rev, at), rev.id)
  {
  }

  lemma ApprovalComputes(s: Skill, id: RevisionID, at: Time)
    requires id in s.revisions && s.revisions[id].status == PendingApproval && !Stale(s, s.revisions[id])
    requires s.revisions[id].action != Delete ==> s.revisions[id].spec.Some?
    ensures var heard := s.revisions[id].(approved := Some(true));
      var archived := ArchiveCurrent(s.(live := BodyOf(heard)), heard.id, {}).0;
      Decide(s, id, true, at, {}) ==
        (Put(archived.(pointer := PointerFor(heard)), heard.(status := Active, promotedAt := Some(at))), Decided)
  {
  }

  lemma ApprovalPromotes(s: Skill, id: RevisionID, at: Time)
    requires Consistent(s) && id in s.revisions && s.revisions[id].status == PendingApproval
    requires !Stale(s, s.revisions[id])
    ensures Decide(s, id, true, at, {}).1 == Decided
    ensures Replaces(s, Decide(s, id, true, at, {}).0, id, s.pointer)
  {
    ApprovalComputes(s, id, at);
    PromotionShape(s, id);
    var shown := s.(live := BodyOf(s.revisions[id]));
    assert ArchiveCurrent(shown, id, {}).0.revisions == ArchiveCurrent(s, id, {}).0.revisions;
  }

  /** What a decision records of the human: approval or rejection, also when it was made on a stale revision. */
  lemma DecisionIsRecorded(s: Skill, id: RevisionID, approve: bool, at: Time, f: Faults)
    requires id in s.revisions && s.revisions[id].id == id && s.revisions[id].status == PendingApproval
    ensures var (t, r) := Decide(s, id, approve, at, f);
      (r == Decided ==>
         t.revisions[id].approved == Some(approve) &&
         t.revisions[id].promotedAt == if approve then Some(at) else s.revisions[id].promotedAt) &&
      (r == StaleParent && WriteRevision !in f ==>
         t.revisions[id].approved == Some(false) && t.revisions[id].status == Rejected) &&
      (r == StaleParent ==> approve && s.revisions[id].action == Update && s.pointer != s.revisions[id].parent) &&
      (r == Decided && approve && s.revisions[id].action == Update ==> s.pointer == s.revisions[id].parent)
  {
  }

  lemma DecisionRefuses(s: Skill, id: RevisionID, approve: bool, at: Time)
    requires WellKeyed(s) && id in s.revisions && s.revisions[id].status == PendingApproval
    requires !approve || Stale(s, s.revisions[id])
    ensures Refuses(s, Decide(s, id, approve, at, {}).0, id)
    ensures Decide(s, id, approve, at, {}).1 == if approve then StaleParent else Decided
  {
  }

  lemma RollbackReplaces(s: Skill, wanted: RevisionID, at: Time)
    requires Consistent(s)
    ensures var (t, r) := Rollback(s, wanted, at, {});
      if r.RolledBack?
      then Replaces(s, t, r.restored, r.previous) && r.previous == CurrentActive(s) &&
           s.revisions[r.restored].status == Archived
      else t == s
  {
    RollbackChangesTwo(s, wanted, at, {});
    LatestFound(s.revisions, s.order, Active);
    LatestFound(s.revisions, s.order, Archived);
    var (t, r) := Rollback(s, wanted, at, {});
    if r.RolledBack? {
      RollbackIsElsewhere(s, wanted, at);
    }
  }

  lemma RollbackIsElsewhere(s: Skill, wanted: RevisionID, at: Time)
    requires WellKeyed(s)
    ensures var r := Rollback(s, wanted, at, {}).1; r.RolledBack? ==> r.restored != r.previous
  {
    LatestFound(s.revisions, s.order, Archived);
  }

  /** A takeover keeps a skill consistent as long as it demotes what the pointer named. */
  lemma ReplacesConsistent(s: Skill, t: Skill, id: RevisionID, previous: RevisionID)
    requires Consistent(s) && Replaces(s, t, id, previous)
    requires s.pointer != NO_REVISION ==> previous == s.pointer
    ensures Consistent(t)
  {
    assert forall x :: x in s.revisions ==> SameText(s.revisions[x], t.revisions[x]);
  }

  lemma RefusesConsistent(s: Skill, t: Skill, id: RevisionID)
    requires Consistent(s) && Refuses(s, t, id)
    ensures Consistent(t)
  {
    assert s.pointer != id;
  }

  lemma AddsConsistent(s: Skill, t: Skill, rev: Revision)
    requires Consistent(s) && Adds(s, t, rev) && rev.id != NO_REVISION && (rev.action != Delete ==> rev.spec.Some?)
    ensures Consistent(t)
  {
    AddsKeyed(s, t, rev);
  }

  lemma AddsKeyed(s: Skill, t: Skill, rev: Revision)
    requires WellKeyed(s) && Adds(s, t, rev) && rev.id != NO_REVISION
    ensures WellKeyed(t)
  {
  }

  // ----- Operations with working storage keep a skill consistent -----

  lemma DecideKeepsConsistent(s: Skill, id: RevisionID, approve: bool, at: Time)
    requires Consistent(s)
    ensures Consistent(Decide(s, id, approve, at, {}).0)
  {
    if id in s.revisions && s.revisions[id].status == PendingApproval {
      var t := Decide(s, id, approve, at, {}).0;
      if approve && !Stale(s, s.revisions[id]) {
        ApprovalPromotes(s, id, at);
        ReplacesConsistent(s, t, id, s.pointer);
      } else {
        DecisionRefuses(s, id, approve, at);
        RefusesConsistent(s, t, id);
      }
    }
  }

  lemma RollbackKeepsConsistent(s: Skill, wanted: RevisionID, at: Time)
    requires Consistent(s)
    ensures Consistent(Rollback(s, wanted, at, {}).0)
  {
    RollbackReplaces(s, wanted, at);
    var (t, r) := Rollback(s, wanted, at, {});
    if r.RolledBack? {
      ReplacesConsistent(s, t, r.restored, r.previous);
    }
  }

  // ----- Whole runs -----

  /** What one event does to the skill, the preparations and the record of pointer moves. */
  ghost predicate Promotes(v: World, w: World, rev: Revision) {
    rev.id in v.skill.revisions && SameText(v.skill.revisions[rev.id], rev) &&
    v.skill.revisions[rev.id].status in {Pending, PendingApproval} &&
    !Stale(v.skill, v.skill.revisions[rev.id]) &&
    Replaces(v.skill, w.skill, rev.id, v.skill.pointer) &&
    w.moves == v.moves + [Move(false, rev, v.skill.pointer, w.skill.pointer)] &&
    w.drafts == v.drafts && w.gated == v.gated - {rev.id}
  }

  ghost predicate Restores(v: World, w: World, rev: Revision) {
    rev.id in v.skill.revisions && v.skill.revisions[rev.id] == rev && rev.status == Archived &&
    Replaces(v.skill, w.skill, rev.id, CurrentActive(v.skill)) &&
    w.moves == v.moves + [Move(true, rev, v.skill.pointer, w.skill.pointer)] &&
    w.drafts == v.drafts && w.gated == v.gated
  }

  ghost predicate Declines(v: World, w: World, id: RevisionID) {
    Refuses(v.skill, w.skill, id) && w.moves == v.moves && w.drafts == v.drafts && w.gated == v.gated - {id}
  }

  ghost predicate Files(v: World, w: World, rev: Revision) {
    rev.id in v.drafts && SameText(v.drafts[rev.id], rev) && rev == v.drafts[rev.id].(status := rev.status) &&
    Adds(v.skill, w.skill, rev) && w.moves == v.moves && w.drafts == v.drafts - {rev.id} &&
    w.gated == if rev.status == Pending then v.gated[rev.id := rev] else v.gated
  }

  ghost predicate Prepares(v: World, w: World, rev: Revision) {
    rev.id != NO_REVISION && rev.id !in v.skill.revisions && rev.id !in v.drafts &&
    Drafted(rev, rev.id) && (rev.action == Update ==> rev.parent == v.skill.pointer) &&
    w == v.(drafts := v.drafts[rev.id := rev])
  }

  /** Every event is one of these, or changes nothing. */
  ghost predicate StepShape(v: World, w: World) {
    w == v ||
    (exists rev :: Promotes(v, w, rev)) || (exists rev :: Restores(v, w, rev)) ||
    (exists id :: Declines(v, w, id)) || (exists rev :: Files(v, w, rev)) || (exists rev :: Prepares(v, w, rev))
  }

  lemma DraftShape(v: World, id: RevisionID, action: Action, spec: Spec)
    requires Enabled(v, Draft(id, action, spec))
    ensures Prepares(v, Apply(v, Draft(id, action, spec)), NewRevision(v.skill, id, action, spec))
  {
  }

  lemma FileShape(v: World, id: RevisionID, verdict: Status)
    requires Prepared(v) && Enabled(v, File(id, verdict))
    ensures Files(v, Apply(v, File(id, verdict)), v.drafts[id].(status := verdict))
  {
  }

  lemma PublishShape(v: World, id: RevisionID, at: Time)
    requires Consistent(v.skill) && Prepared(v) && Enabled(v, PublishGated(id, at))
    ensures var w := Apply(v, PublishGated(id, at));
      Promotes(v, w, v.gated[id]) || Declines(v, w, id)
  {
    var rev := v.gated[id];
    if Stale(v.skill, rev) {
      PublishRefuses(v.skill, rev, at);
    } else {
      PublishPromotes(v.skill, rev, at);
    }
  }

  lemma DecideShape(v: World, id: RevisionID, approve: bool, at: Time)
    requires Consistent(v.skill) && Prepared(v)
    ensures var w := Apply(v, DecidePending(id, approve, at));
      w == v || Declines(v, w, id) || (id in v.skill.revisions && Promotes(v, w, v.skill.revisions[id]))
  {
    if id in v.skill.revisions && v.skill.revisions[id].status == PendingApproval {
      assert id !in v.gated;
      assert v.gated - {id} == v.gated;
      if approve && !Stale(v.skill, v.skill.revisions[id]) {
        ApprovalPromotes(v.skill, id, at);
      } else {
        DecisionRefuses(v.skill, id, approve, at);
      }
    }
  }

  lemma RollBackShape(v: World, wanted: RevisionID, at: Time)
    requires Consistent(v.skill)
    ensures var w := Apply(v, RollBack(wanted, at));
      w == v || exists rev :: Restores(v, w, rev)
  {
    RollbackReplaces(v.skill, wanted, at);
    var r := Rollback(v.skill, wanted, at, {}).1;
    if r.RolledBack? {
      assert Restores(v, Apply(v, RollBack(wanted, at)), v.skill.revisions[r.restored]);
    }
  }

  lemma EveryStepHasShape(v: World, e: Event)
    requires Consistent(v.skill) && Prepared(v) && Enabled(v, e)
    ensures StepShape(v, Apply(v, e))
  {
    match e
    case Draft(id, action, spec) => DraftShape(v, id, action, spec);
    case File(id, verdict) => FileShape(v, id, verdict);
    case PublishGated(id, at) => PublishShape(v, id, at);
    case DecidePending(id, approve, at) => DecideShape(v, id, approve, at);
    case RollBack(wanted, at) => RollBackShape(v, wanted, at);
  }

  // ----- The record of pointer moves -----

  ghost predicate PromotedBy(moves: seq<Move>, n: nat, id: RevisionID)
    requires n <= |moves|
  {
    exists i :: 0 <= i < n && !moves[i].rollback && moves[i].rev.id == id
  }

  /** The moves form one chain from the empty pointer to the present one. */
  ghost predicate Linked(moves: seq<Move>, pointer: RevisionID) {
    (if moves == [] then pointer == NO_REVISION
     else moves[0].from == NO_REVISION && moves[|moves| - 1].to == pointer) &&
    (forall i :: 1 <= i < |moves| ==> moves[i].from == moves[i - 1].to)
  }

  /** Each move is justified: by the parent check, or by an earlier promotion of what it restores. */
  ghost predicate Justified(moves: seq<Move>) {
    (forall i :: 0 <= i < |moves| ==>
      var m := moves[i];
      m.rev.id != NO_REVISION && m.to == PointerFor(m.rev) && m.rev.parent != m.rev.id &&
      (if m.rollback then PromotedBy(moves, i, m.rev.id)
       else !PromotedBy(moves, i, m.rev.id) && (m.rev.action == Update ==> m.from == m.rev.parent)))
  }

  /** Exactly the revisions that were once promoted are active or archived. */
  ghost predicate Promotions(w: World) {
    (forall id :: id in w.skill.revisions ==>
      (w.skill.revisions[id].status in {Active, Archived} <==> PromotedBy(w.moves, |w.moves|, id))) &&
    (forall i :: 0 <= i < |w.moves| ==> w.moves[i].rev.id in w.skill.revisions)
  }

  ghost predicate Parented(w: World) {
    (forall id :: id in w.drafts ==> w.drafts[id].parent != id) &&
    (forall id :: id in w.skill.revisions ==> w.skill.revisions[id].parent != id)
  }

  ghost predicate Inv(w: World) {
    Consistent(w.skill) && Prepared(w) && Parented(w) && Linked(w.moves, w.skill.pointer) && Justified(w.moves) &&
    Promotions(w)
  }

  lemma PromotedByGrows(moves: seq<Move>, m: Move, id: RevisionID)
    ensures PromotedBy(moves + [m], |moves| + 1, id) <==>
      (PromotedBy(moves, |moves|, id) || (!m.rollback && m.rev.id == id))
    ensures forall n, x :: 0 <= n <= |moves| ==> (PromotedBy(moves + [m], n, x) <==> PromotedBy(moves, n, x))
  {
    var longer := moves + [m];
    assert forall i :: 0 <= i < |moves| ==> longer[i] == moves[i];
    assert longer[|moves|] == m;
    if PromotedBy(longer, |moves| + 1, id) && !PromotedBy(moves, |moves|, id) {
      var i :| 0 <= i < |moves| + 1 && !longer[i].rollback && longer[i].rev.id == id;
      assert i == |moves|;
    }
    forall n, x | 0 <= n <= |moves|
      ensures PromotedBy(longer, n, x) <==> PromotedBy(moves, n, x)
    {
      if PromotedBy(longer, n, x) {
        var i :| 0 <= i < n && !longer[i].rollback && longer[i].rev.id == x;
        assert moves[i] == longer[i];
      }
      if PromotedBy(moves, n, x) {
        var i :| 0 <= i < n && !moves[i].rollback && moves[i].rev.id == x;
        assert longer[i] == moves[i];
      }
    }
  }

  /** A further justified move keeps the chain. */
  lemma MoveKeepsChain(moves: seq<Move>, pointer: RevisionID, m: Move)
    requires Linked(moves, pointer) && Justified(moves) && m.from == pointer
    requires m.rev.id != NO_REVISION && m.to == PointerFor(m.rev) && m.rev.parent != m.rev.id
    requires if m.rollback then PromotedBy(moves, |moves|, m.rev.id)
             else !PromotedBy(moves, |moves|, m.rev.id) && (m.rev.action == Update ==> m.from == m.rev.parent)
    ensures Linked(moves + [m], m.to) && Justified(moves + [m])
  {
    PromotedByGrows(moves, m, m.rev.id);
    var longer := moves + [m];
    assert forall i :: 0 <= i < |moves| ==> longer[i] == moves[i];
    assert longer[|moves|] == m;
  }

  lemma PromotesKeeps(v: World, w: World, rev: Revision)
    requires Inv(v) && Promotes(v, w, rev)
    ensures Inv(w)
  {
    ReplacesConsistent(v.skill, w.skill, rev.id, v.skill.pointer);
    var m := Move(false, rev, v.skill.pointer, w.skill.pointer);
    MoveKeepsChain(v.moves, v.skill.pointer, m);
    PromotesKeepsPrepared(v, w, rev);
    ReplacesKeepsPromotions(v, w, m, v.skill.pointer);
  }

  lemma PromotesKeepsPrepared(v: World, w: World, rev: Revision)
    requires Inv(v) && Promotes(v, w, rev)
    ensures Prepared(w) && Parented(w)
  {
  }

  lemma ReplacesKeepsPromotions(v: World, w: World, m: Move, previous: RevisionID)
    requires Promotions(v) && Replaces(v.skill, w.skill, m.rev.id, previous) && w.moves == v.moves + [m]
    requires previous in v.skill.revisions ==> v.skill.revisions[previous].status in {Active, Archived}
    requires m.rollback ==> v.skill.revisions[m.rev.id].status in {Active, Archived}
    ensures Promotions(w)
  {
    forall id | id in w.skill.revisions
      ensures w.skill.revisions[id].status in {Active, Archived} <==> PromotedBy(w.moves, |w.moves|, id)
    {
      PromotedByGrows(v.moves, m, id);
    }
    assert forall i :: 0 <= i < |v.moves| ==> w.moves[i] == v.moves[i];
  }

  lemma RestoresKeeps(v: World, w: World, rev: Revision)
    requires Inv(v) && Restores(v, w, rev)
    ensures Inv(w)
  {
    var previous := CurrentActive(v.skill);
    LatestFound(v.skill.revisions, v.skill.order, Active);
    ReplacesConsistent(v.skill, w.skill, rev.id, previous);
    var m := Move(true, rev, v.skill.pointer, w.skill.pointer);
    MoveKeepsChain(v.moves, v.skill.pointer, m);
    RestoresKeepsPrepared(v, w, rev);
    ReplacesKeepsPromotions(v, w, m, previous);
  }

  lemma RestoresKeepsPrepared(v: World, w: World, rev: Revision)
    requires Inv(v) && Restores(v, w, rev)
    ensures Prepared(w) && Parented(w)
  {
    LatestFound(v.skill.revisions, v.skill.order, Active);
  }

  lemma DeclinesKeeps(v: World, w: World, id: RevisionID)
    requires Inv(v) && Declines(v, w, id)
    ensures Inv(w)
  {
    RefusesConsistent(v.skill, w.skill, id);
  }

  lemma FilesKeeps(v: World, w: World, rev: Revision)
    requires Inv(v) && Files(v, w, rev)
    ensures Inv(w)
  {
    AddsConsistent(v.skill, w.skill, rev);
    FilesKeepsPrepared(v, w, rev);
    FilesKeepsPromotions(v, w, rev);
  }

  lemma FilesKeepsPrepared(v: World, w: World, rev: Revision)
    requires Prepared(v) && Parented(v) && Files(v, w, rev)
    ensures Prepared(w) && Parented(w)
  {
  }

  lemma FilesKeepsPromotions(v: World, w: World, rev: Revision)
    requires Promotions(v) && Files(v, w, rev)
    ensures Promotions(w)
  {
    assert !PromotedBy(w.moves, |w.moves|, rev.id);
  }

  lemma StepKeeps(v: World, e: Event)
    requires Inv(v) && Enabled(v, e)
    ensures Inv(Apply(v, e))
  {
    var w := Apply(v, e);
    EveryStepHasShape(v, e);
    if rev :| Promotes(v, w, rev) {
      PromotesKeeps(v, w, rev);
    } else if rev :| Restores(v, w, rev) {
      RestoresKeeps(v, w, rev);
    } else if id :| Declines(v, w, id) {
      DeclinesKeeps(v, w, id);
    } else if rev :| Files(v, w, rev) {
      FilesKeeps(v, w, rev);
    } else if rev :| Prepares(v, w, rev) {
      PreparesKeeps(v, w, rev);
    }
  }

  lemma PreparesKeeps(v: World, w: World, rev: Revision)
    requires Inv(v) && Prepares(v, w, rev)
    ensures Inv(w)
  {
  }

  lemma {:induction false} RunInv(run: seq<World>, events: seq<Event>, n: nat)
    requires IsRun(run, events) && n < |run|
    ensures Inv(run[n])
  {
    if n > 0 {
      RunInv(run, events, n - 1);
      assert StepAt(run, events, n - 1);
      StepKeeps(run[n - 1], events[n - 1]);
    }
  }

  // ----- The promises -----

  /** In every reachable world the pointer, the active statuses and the published body agree. */
  lemma PointerNamesTheActiveRevision(run: seq<World>, events: seq<Event>, n: nat)
    requires IsRun(run, events) && n < |run|
    ensures var s := run[n].skill;
      (forall id :: id in s.revisions && s.revisions[id].action != Delete ==>
        (s.revisions[id].status == Active <==> id == s.pointer)) &&
      (if s.pointer == NO_REVISION then s.live == None
       else s.pointer in s.revisions && s.revisions[s.pointer].status == Active &&
            s.live.Some? && s.live == s.revisions[s.pointer].spec)
  {
    RunInv(run, events, n);
  }

  /** In every reachable world exactly the tombstones are without a body. */
  lemma {:induction false} TombstonesHaveNoBody(run: seq<World>, events: seq<Event>, n: nat, id: RevisionID)
    requires IsRun(run, events) && n < |run| && id in run[n].skill.revisions
    ensures run[n].skill.revisions[id].action == Delete <==> run[n].skill.revisions[id].spec.None?
    decreases n
  {
    if n > 0 {
      RunInv(run, events, n - 1);
      assert StepAt(run, events, n - 1);
      EveryStepHasShape(run[n - 1], events[n - 1]);
      if id in run[n - 1].skill.revisions {
        TombstonesHaveNoBody(run, events, n - 1, id);
        RevisionsMoveForward(run, events, n - 1, id);
      } else {
        NewcomersAreBodied(run[n - 1], run[n], id);
      }
    }
  }

  lemma NewcomersAreBodied(v: World, w: World, id: RevisionID)
    requires Prepared(v) && StepShape(v, w) && id in w.skill.revisions && id !in v.skill.revisions
    ensures Bodied(w.skill.revisions[id])
  {
  }

  predicate UpdateMove(m: Move) {
    !m.rollback && m.rev.action == Update
  }

  /** A promoted update moves the pointer from exactly the revision recorded as its parent to the update itself. */
  lemma UpdateLeavesItsParent(run: seq<World>, events: seq<Event>, n: nat, i: nat)
    requires IsRun(run, events) && n < |run| && i < |run[n].moves| && UpdateMove(run[n].moves[i])
    ensures var m := run[n].moves[i]; m.from == m.rev.parent && m.to == m.rev.id && m.from != m.to
  {
    RunInv(run, events, n);
  }

  /** Two promoted updates of one parent have a rollback or a deletion between them that put the pointer back. */
  lemma NoLostUpdate(run: seq<World>, events: seq<Event>, n: nat, i: nat, j: nat)
    requires IsRun(run, events) && n < |run| && i < j < |run[n].moves|
    requires UpdateMove(run[n].moves[i]) && UpdateMove(run[n].moves[j])
    requires run[n].moves[i].rev.parent == run[n].moves[j].rev.parent
    ensures var m := run[n].moves;
      m[i].from == m[i].rev.parent == m[j].from &&
      i < j - 1 && m[j - 1].to == m[i].rev.parent && (m[j - 1].rollback || m[j - 1].rev.action == Delete)
  {
    RunInv(run, events, n);
    var m := run[n].moves;
    var k := j - 1;
    assert m[j].from == m[k].to;
    if !m[k].rollback && m[k].rev.action != Delete && i < k {
      DepartureWasPromoted(m, run[n].skill.pointer, i, k);
      assert false;
    }
  }

  /** A pointer value that a move leaves was promoted before, so no later promotion has its id. */
  lemma DepartureWasPromoted(moves: seq<Move>, pointer: RevisionID, i: nat, k: nat)
    requires Linked(moves, pointer) && Justified(moves) && i < k < |moves| && moves[i].from != NO_REVISION
    ensures moves[k].rollback || moves[k].rev.id != moves[i].from
  {
    var id := moves[i].from;
    assert id == moves[i - 1].to == moves[i - 1].rev.id;
    if moves[i - 1].rollback {
      assert PromotedBy(moves, i - 1, id);
    }
    assert PromotedBy(moves, k, id);
  }

  /** The move a step records is the pointer's, of a revision as it is stored, which is now active. */
  ghost predicate Records(v: World, w: World, m: Move, rollback: bool) {
    w.moves == v.moves + [m] && m.rollback == rollback && m.from == v.skill.pointer && m.to == w.skill.pointer &&
    m.rev.id in v.skill.revisions && SameText(v.skill.revisions[m.rev.id], m.rev) &&
    m.rev.id in w.skill.revisions && w.skill.revisions[m.rev.id].status == Active
  }

  /** The moves are a faithful history of the pointer: a step extends them exactly when it promotes or restores. */
  lemma MovesAreThePointer(run: seq<World>, events: seq<Event>, n: nat)
    requires IsRun(run, events) && n < |events|
    ensures var v, w := run[n], run[n + 1];
      (w.moves == v.moves && w.skill.pointer == v.skill.pointer) || (exists m :: Records(v, w, m, events[n].RollBack?))
  {
    RunInv(run, events, n);
    assert StepAt(run, events, n);
    var v, w := run[n], run[n + 1];
    EveryStepHasShape(v, events[n]);
    if rev :| Restores(v, w, rev) {
      OnlyRollbackRestores(v, events[n]);
      assert Records(v, w, Move(true, rev, v.skill.pointer, w.skill.pointer), true);
    } else if rev :| Promotes(v, w, rev) {
      RollbackNeverPromotes(v, events[n]);
      assert Records(v, w, Move(false, rev, v.skill.pointer, w.skill.pointer), false);
    }
  }

  lemma RollbackNeverPromotes(v: World, e: Event)
    requires Enabled(v, e) && exists rev :: Promotes(v, Apply(v, e), rev)
    ensures !e.RollBack?
  {
    var w := Apply(v, e);
    assert |w.moves| == |v.moves| + 1 && !w.moves[|v.moves|].rollback;
  }

  /** How a status may move in one step. */
  predicate MayBecome(before: Status, after: Status, rollback: bool) {
    before == after ||
    match before
    case Pending => after == Active || after == Rejected
    case PendingApproval => after == Active || after == Rejected
    case Active => after == Archived
    case Archived => after == Active && rollback
    case _ => false
  }

  /** Once written, a revision keeps its text, and its status moves only as MayBecome says. */
  lemma RevisionsMoveForward(run: seq<World>, events: seq<Event>, n: nat, id: RevisionID)
    requires IsRun(run, events) && n < |events| && id in run[n].skill.revisions
    ensures id in run[n + 1].skill.revisions &&
      SameText(run[n].skill.revisions[id], run[n + 1].skill.revisions[id]) &&
      MayBecome(run[n].skill.revisions[id].status, run[n + 1].skill.revisions[id].status, events[n].RollBack?)
  {
    RunInv(run, events, n);
    assert StepAt(run, events, n);
    var v, w, e := run[n], run[n + 1], events[n];
    EveryStepHasShape(v, e);
    if rev :| Promotes(v, w, rev) {
      TakeoverMovesForward(v.skill, w.skill, rev.id, v.skill.pointer, id, false);
    } else if rev :| Restores(v, w, rev) {
      OnlyRollbackRestores(v, e);
      LatestFound(v.skill.revisions, v.skill.order, Active);
      TakeoverMovesForward(v.skill, w.skill, rev.id, CurrentActive(v.skill), id, true);
    } else {
      OthersMoveForward(v, w, id);
    }
  }

  lemma TakeoverMovesForward(s: Skill, t: Skill, winner: RevisionID, previous: RevisionID, id: RevisionID,
                             rollback: bool)
    requires Replaces(s, t, winner, previous) && id in s.revisions
    requires s.revisions[winner].status in if rollback then {Archived} else {Pending, PendingApproval}
    requires previous in s.revisions ==> s.revisions[previous].status == Active
    ensures id in t.revisions && SameText(s.revisions[id], t.revisions[id])
    ensures MayBecome(s.revisions[id].status, t.revisions[id].status, rollback)
  {
  }

  lemma OthersMoveForward(v: World, w: World, id: RevisionID)
    requires id in v.skill.revisions && Prepared(v)
    requires w == v || (exists x :: Declines(v, w, x)) || (exists rev :: Files(v, w, rev)) ||
      (exists rev :: Prepares(v, w, rev))
    ensures id in w.skill.revisions && SameText(v.skill.revisions[id], w.skill.revisions[id])
    ensures MayBecome(v.skill.revisions[id].status, w.skill.revisions[id].status, false)
  {
  }

  /** A move marked as a rollback comes from a rollback. */
  lemma OnlyRollbackRestores(v: World, e: Event)
    requires Enabled(v, e)
    requires exists rev :: Restores(v, Apply(v, e), rev)
    ensures e.RollBack?
  {
    var w := Apply(v, e);
    assert |w.moves| == |v.moves| + 1 && w.moves[|v.moves|].rollback;
  }

  /** Rejected is final, and the text of a revision never changes, over any stretch of a run. */
  lemma {:induction false} RejectedIsFinal(run: seq<World>, events: seq<Event>, i: nat, j: nat, id: RevisionID)
    requires IsRun(run, events) && i <= j < |run| && id in run[i].skill.revisions
    ensures id in run[j].skill.revisions && SameText(run[i].skill.revisions[id], run[j].skill.revisions[id])
    ensures run[i].skill.revisions[id].status == Rejected ==> run[j].skill.revisions[id].status == Rejected
  {
    if i < j {
      RejectedIsFinal(run, events, i, j - 1, id);
      RevisionsMoveForward(run, events, j - 1, id);
    }
  }

  /** An archived revision that is active later was restored by a rollback in between. */
  lemma {:induction false} ReactivationNeedsRollback(run: seq<World>, events: seq<Event>, i: nat, j: nat,
                                                     id: RevisionID)
    requires IsRun(run, events) && i <= j < |run| && id in run[i].skill.revisions
    requires run[i].skill.revisions[id].status == Archived
    ensures id in run[j].skill.revisions
    ensures run[j].skill.revisions[id].status != Archived ==>
      exists k :: i <= k < j && events[k].RollBack? &&
        id in run[k].skill.revisions && run[k].skill.revisions[id].status == Archived &&
        id in run[k + 1].skill.revisions && run[k + 1].skill.revisions[id].status == Active
  {
    if i < j {
      ReactivationNeedsRollback(run, events, i, j - 1, id);
      RevisionsMoveForward(run, events, j - 1, id);
    }
  }
}
