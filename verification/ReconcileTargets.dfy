/**
 Exactly what each rule of the reconciliation aims at (evolution/reconcile.go:120-158, 171-287,
 398-419, 506-578, 638-830): which existing skill a candidate is to update, in terms of the names
 alone, and what then becomes of each candidate, in terms of the candidates before it.
 */
module ReconcileTargets {
  import opened Prelude
  import opened Reconcile
  import opened ReconcileTheorems

  // ----- Rule 1: task variants -----

  /** At position k stands a separator, or a version: a v and a digit. */
  predicate HeadAt(s: string, k: nat)
    requires k < |s|
  {
    s[k] in "-:([/|_." || (s[k] in "vV" && k + 1 < |s| && '0' <= s[k + 1] <= '9')
  }

  /** The candidate is p, or p followed by blanks, if any, and then by a separator or a version. */
  predicate VariantOf(candidate: string, p: string) {
    p != "" && p <= candidate &&
    (candidate == p ||
     exists k :: |p| <= k < |candidate| && HeadAt(candidate, k) && forall i :: |p| <= i < k ==> candidate[i] in " \t")
  }

  lemma {:induction false} TrimmedFrom(rest: string) returns (k: nat)
    ensures k <= |rest| && TrimLeft(rest) == rest[k..] && forall i :: 0 <= i < k ==> rest[i] in " \t"
    ensures k < |rest| ==> rest[k] !in " \t"
  {
    if rest != "" && (rest[0] == ' ' || rest[0] == '\t') {
      var j := TrimmedFrom(rest[1..]);
      k := j + 1;
      assert rest[k..] == rest[1..][j..];
      assert forall i :: 1 <= i < k ==> rest[i] == rest[1..][i - 1];
    } else {
      k := 0;
    }
  }

  lemma SeparatorIs(rest: string)
    ensures IsTaskVariantSeparator(rest) <==>
      exists k :: 0 <= k < |rest| && HeadAt(rest, k) && forall i :: 0 <= i < k ==> rest[i] in " \t"
  {
    var n := TrimmedFrom(rest);
    if n < |rest| {
      assert rest[n..][0] == rest[n];
      assert n + 1 < |rest| ==> rest[n..][1] == rest[n + 1];
    }
    if IsTaskVariantSeparator(rest) {
      assert HeadAt(rest, n);
    }
    if k :| 0 <= k < |rest| && HeadAt(rest, k) && forall i :: 0 <= i < k ==> rest[i] in " \t" {
      assert k == n;
    }
  }

  /** What it takes to be a candidate's parent by the superset rule. */
  lemma QualifiesIffVariant(candidate: string, p: string)
    ensures Qualifies(candidate, p) <==> VariantOf(candidate, p)
  {
    if p <= candidate {
      var rest := candidate[|p|..];
      SeparatorIs(rest);
      if k :| 0 <= k < |rest| && HeadAt(rest, k) && forall i :: 0 <= i < k ==> rest[i] in " \t" {
        assert HeadAt(candidate, |p| + k);
        assert forall i :: |p| <= i < |p| + k ==> candidate[i] == rest[i - |p|];
      }
      if k :| |p| <= k < |candidate| && HeadAt(candidate, k) && forall i :: |p| <= i < k ==> candidate[i] in " \t" {
        assert HeadAt(rest, k - |p|);
      }
      assert |candidate| == |p| ==> candidate == p;
    }
  }

  // ----- Rule 3: quantified siblings -----

  /** `norm` is another name of the candidate's family, and not one for a certain count only. */
  predicate GenericName(n: Naming, candidate: string, norm: string) {
    norm != "" && norm != candidate && n.family(norm) == n.family(candidate) &&
    (n.multiplicity(norm) || !n.counted(norm))
  }

  /** The candidate's name has a family, which is not just the name itself. */
  predicate HasFamily(n: Naming, candidate: string) {
    n.family(candidate) != "" && n.family(candidate) != candidate
  }

  lemma {:induction false} SiblingFirst(n: Naming, candidate: string, parents: seq<Parent>)
    requires Descending(parents) && HasFamily(n, candidate)
    ensures var m := MatchSibling(n, candidate, parents);
      (m != "" ==> GenericName(n, candidate, m) && exists p :: p in parents && p.norm == m) &&
      forall p :: p in parents && GenericName(n, candidate, p.norm) ==> m != "" && |p.norm| <= |m|
  {
    if parents != [] {
      assert parents == [parents[0]] + parents[1..] && parents[0] in parents;
      if !GenericName(n, candidate, parents[0].norm) {
        SiblingFirst(n, candidate, parents[1..]);
      }
    }
  }

  /**
   The quantified-sibling rule aims at a longest existing generic name of the candidate's family,
   and at one exactly when there is one.
   */
  lemma LongestGenericNameWins(n: Naming, existing: seq<string>, c: SkillSpec)
    ensures var (target, candidate) := (TargetOf(n, QuantifiedSibling, existing, c), n.normalize(c.name));
      (target.Some? <==>
         HasFamily(n, candidate) && exists e :: e in existing && GenericName(n, candidate, n.normalize(e))) &&
      (target.Some? ==>
         target.value.name in existing && n.normalize(target.value.name) == target.value.norm &&
         GenericName(n, candidate, target.value.norm) &&
         forall e :: e in existing && GenericName(n, candidate, n.normalize(e)) ==>
           |n.normalize(e)| <= |target.value.norm|)
  {
    var (candidate, index) := (n.normalize(c.name), Index(n, existing));
    var sorted := SortDesc(index);
    SortSorts(index);
    IndexIs(n, existing);
    ByNormIs(n, existing);
    if HasFamily(n, candidate) {
      SiblingFirst(n, candidate, sorted);
      forall e | e in existing && GenericName(n, candidate, n.normalize(e))
        ensures MatchSibling(n, candidate, sorted) != "" && |n.normalize(e)| <= |MatchSibling(n, candidate, sorted)|
      {
        SortedHas(index, Parent(n.normalize(e), e));
      }
      if MatchSibling(n, candidate, sorted) != "" {
        var p :| p in sorted && p.norm == MatchSibling(n, candidate, sorted);
        SortedHas(index, p);
      }
    }
  }

  /** Of several existing skills with the target's normalized name, rules 1 and 3 take the last. */
  lemma LastNameWins(n: Naming, rule: Rule, existing: seq<string>, c: SkillSpec, i: nat)
    requires rule != WordOverlap && TargetOf(n, rule, existing, c).Some? && i < |existing|
    requires n.normalize(existing[i]) == TargetOf(n, rule, existing, c).value.norm
    ensures exists m :: i <= m < |existing| && existing[m] == TargetOf(n, rule, existing, c).value.name
  {
    ByNormIsLast(n, existing, i);
  }

  lemma {:induction false} ByNormIsLast(n: Naming, existing: seq<string>, i: nat)
    requires i < |existing| && n.normalize(existing[i]) != ""
    ensures n.normalize(existing[i]) in ByNorm(n, existing)
    ensures exists m :: i <= m < |existing| && existing[m] == ByNorm(n, existing)[n.normalize(existing[i])]
  {
    var k := |existing| - 1;
    if i < k {
      ByNormIsLast(n, existing[..k], i);
      assert existing[..k][i] == existing[i];
      var m :| i <= m < k && existing[..k][m] == ByNorm(n, existing[..k])[n.normalize(existing[i])];
      assert existing[m] == existing[..k][m];
    }
    assert existing[k] == existing[|existing| - 1];
  }

  // ----- Rule 4: word overlap -----

  /** e can be compared with the candidate: it has two significant words, and neither name begins with the other. */
  predicate Comparable(n: Naming, candidate: string, e: string) {
    |n.words(e)| >= 2 && !(n.normalize(e) <= n.normalize(candidate)) && !(n.normalize(candidate) <= n.normalize(e))
  }

  /** How many significant words two names share, and how many they have together. */
  function Shared(n: Naming, a: string, b: string): nat {
    |n.words(a) * n.words(b)|
  }

  function Together(n: Naming, a: string, b: string): nat {
    |n.words(a) + n.words(b)|
  }

  lemma ScoreIs(n: Naming, candidate: string, e: string)
    requires |n.words(candidate)| >= 2 && |n.words(e)| >= 2
    ensures Together(n, candidate, e) == |n.words(candidate)| + |n.words(e)| - Shared(n, candidate, e)
    ensures Together(n, candidate, e) >= 2 && 0 <= Shared(n, candidate, e) <= Together(n, candidate, e)
    ensures Score(n, candidate, e) ==
      if Comparable(n, candidate, e) then Shared(n, candidate, e) as real / Together(n, candidate, e) as real else 0.0
  {
    var a, b := n.words(candidate), n.words(e);
    assert a + b == a + (b - a) && |a + (b - a)| == |a| + |b - a| && |b - a| == |b| - |a * b| by {
      assert b == (b - a) + (a * b);
      assert |b| == |b - a| + |a * b|;
    }
  }

  lemma BestSnoc(n: Naming, candidate: string, front: seq<string>, last: string)
    ensures var (best, score) := Best(n, candidate, WordIndex(n, front));
      Best(n, candidate, WordIndex(n, front + [last])) ==
        if |n.words(last)| >= 2 && Score(n, candidate, last) > score then (last, Score(n, candidate, last))
        else (best, score)
  {
    var existing, index := front + [last], WordIndex(n, front);
    assert existing[..|existing| - 1] == front && existing[|existing| - 1] == last;
    if |n.words(last)| >= 2 {
      assert WordIndex(n, existing) == index + [last];
      assert (index + [last])[..|index|] == index;
    } else {
      assert WordIndex(n, existing) == index;
    }
  }

  /** The score is reached first at position m of the existing names, or m is -1 and nothing scores. */
  ghost predicate FirstBest(n: Naming, candidate: string, existing: seq<string>, m: int, best: string, score: real) {
    -1 <= m < |existing| &&
    (if m == -1 then best == "" && score == 0.0
     else best == existing[m] && |n.words(best)| >= 2 && score == Score(n, candidate, best) && score > 0.0) &&
    forall i :: 0 <= i < |existing| && |n.words(existing[i])| >= 2 ==>
      Score(n, candidate, existing[i]) <= score && (i < m ==> Score(n, candidate, existing[i]) < score)
  }

  lemma FirstBestSnoc(n: Naming, candidate: string, front: seq<string>, last: string, m: int, best: string, score: real)
    requires FirstBest(n, candidate, front, m, best, score)
    ensures if |n.words(last)| >= 2 && Score(n, candidate, last) > score
            then FirstBest(n, candidate, front + [last], |front|, last, Score(n, candidate, last))
            else FirstBest(n, candidate, front + [last], m, best, score)
  {
    assert forall i :: 0 <= i < |front| ==> (front + [last])[i] == front[i];
    assert score >= 0.0;
  }

  /** The best score over the index is reached first at one of the existing names, or nothing scores. */
  lemma {:induction false} BestOver(n: Naming, candidate: string, existing: seq<string>) returns (m: int)
    ensures var (best, score) := Best(n, candidate, WordIndex(n, existing));
      FirstBest(n, candidate, existing, m, best, score)
  {
    if existing == [] {
      m := -1;
    } else {
      var k := |existing| - 1;
      var front, last := existing[..k], existing[k];
      m := BestOver(n, candidate, front);
      var (best, score) := Best(n, candidate, WordIndex(n, front));
      assert existing == front + [last];
      BestSnoc(n, candidate, front, last);
      FirstBestSnoc(n, candidate, front, last, m, best, score);
      m := if |n.words(last)| >= 2 && Score(n, candidate, last) > score then k else m;
    }
  }

  /** Half of the words of both names are common to both. */
  predicate HalfShared(n: Naming, candidate: string, e: string) {
    Comparable(n, candidate, e) && 2 * Shared(n, candidate, e) >= Together(n, candidate, e)
  }

  lemma HalfIsEnough(n: Naming, candidate: string, e: string)
    requires |n.words(candidate)| >= 2 && |n.words(e)| >= 2
    ensures Score(n, candidate, e) >= 0.5 <==> HalfShared(n, candidate, e)
    ensures HalfShared(n, candidate, e) ==> Shared(n, candidate, e) >= 2
  {
    ScoreIs(n, candidate, e);
    if Comparable(n, candidate, e) {
      HalfOf(Shared(n, candidate, e), Together(n, candidate, e));
    }
  }

  lemma HalfOf(p: nat, q: nat)
    requires q > 0
    ensures p as real / q as real >= 0.5 <==> 2 * p >= q
  {
    var r := p as real / q as real;
    assert r * q as real == p as real;
    if r >= 0.5 {
      assert (r - 0.5) * q as real >= 0.0;
    } else {
      assert (0.5 - r) * q as real > 0.0;
    }
  }

  /**
   The word-overlap rule aims at an existing name exactly when the candidate has two significant
   words and shares half of the words with some comparable name; the target is one with the
   highest score, and the first of those.
   */
  lemma BestOverlapWins(n: Naming, existing: seq<string>, c: SkillSpec)
    ensures var target := TargetOf(n, WordOverlap, existing, c);
      (target.Some? <==> |n.words(c.name)| >= 2 && exists e :: e in existing && HalfShared(n, c.name, e)) &&
      (target.Some? ==>
         target.value.norm == n.normalize(target.value.name) && HalfShared(n, c.name, target.value.name) &&
         exists m :: 0 <= m < |existing| && existing[m] == target.value.name &&
           forall i :: 0 <= i < |existing| && Comparable(n, c.name, existing[i]) ==>
             NoBetter(n, c.name, existing[i], existing[m], i < m))
  {
    if |n.words(c.name)| >= 2 {
      var m := BestOver(n, c.name, existing);
      forall i | 0 <= i < |existing| && Comparable(n, c.name, existing[i])
        ensures HalfShared(n, c.name, existing[i]) ==> m != -1 && HalfShared(n, c.name, existing[m])
        ensures m != -1 ==> NoBetter(n, c.name, existing[i], existing[m], i < m)
      {
        HalfIsEnough(n, c.name, existing[i]);
        ScoreIs(n, c.name, existing[i]);
        if m != -1 {
          HalfIsEnough(n, c.name, existing[m]);
          ScoreIs(n, c.name, existing[m]);
        }
      }
      if m != -1 {
        HalfIsEnough(n, c.name, existing[m]);
      }
    }
  }

  /** The share of common words that e has is no higher than best's, or even lower. */
  predicate NoBetter(n: Naming, candidate: string, e: string, best: string, lower: bool)
    requires |n.words(e)| >= 2
  {
    Together(n, candidate, e) > 0 && Together(n, candidate, best) > 0 &&
    var (p, q) := (Shared(n, candidate, e) as real / Together(n, candidate, e) as real,
                   Shared(n, candidate, best) as real / Together(n, candidate, best) as real);
    if lower then p < q else p <= q
  }

  // ----- What becomes of the candidates -----

  /** Candidate i stays in the batch unless it repeats one before it that stays. */
  ghost predicate StaysInBatch(n: Naming, skills: seq<Option<SkillSpec>>, i: nat)
    requires i < |skills|
    decreases i
  {
    skills[i].Some? &&
    forall j :: 0 <= j < i && StaysInBatch(n, skills, j) ==>
      skills[j].Some? && Differs(n, skills[j].value, skills[i].value)
  }

  /** What candidate i adds to the batch that stays, and to the events. */
  ghost function InBatch(n: Naming, skills: seq<Option<SkillSpec>>, i: nat): Batch
    requires i < |skills|
  {
    if skills[i].None? then ([], [])
    else if StaysInBatch(n, skills, i) then ([skills[i]], [])
    else ([], [Event(DropIntraBatchDuplicate, skills[i].value.name, "")])
  }

  ghost function BatchUpTo(n: Naming, skills: seq<Option<SkillSpec>>, k: nat): Batch
    requires k <= |skills|
  {
    if k == 0 then ([], []) else Chained(BatchUpTo(n, skills, k - 1), InBatch(n, skills, k - 1))
  }

  /** The candidates that stay and the events, for a stretch of the batch. */
  type Batch = (seq<Option<SkillSpec>>, seq<Event>)

  function Chained(x: Batch, y: Batch): Batch {
    (x.0 + y.0, x.1 + y.1)
  }

  lemma ChainedTwice(x: Batch, y: Batch, z: Batch)
    ensures Chained(Chained(x, y), z) == Chained(x, Chained(y, z))
  {
    assert (x.0 + y.0) + z.0 == x.0 + (y.0 + z.0) && (x.1 + y.1) + z.1 == x.1 + (y.1 + z.1);
  }

  /** names and shapes are those of the candidates before k that stay. */
  ghost predicate SeenBefore(n: Naming, skills: seq<Option<SkillSpec>>, k: nat, names: set<string>, shapes: set<string>)
    requires k <= |skills|
  {
    (forall x :: x in names <==>
       exists j :: 0 <= j < k && StaysInBatch(n, skills, j) && n.normalize(skills[j].value.name) == x) &&
    (forall x :: x in shapes <==> exists j :: 0 <= j < k && StaysInBatch(n, skills, j) && n.shape(skills[j].value) == x)
  }

  lemma StaysIffUnseen(n: Naming, skills: seq<Option<SkillSpec>>, k: nat, names: set<string>, shapes: set<string>)
    requires k < |skills| && skills[k].Some? && SeenBefore(n, skills, k, names, shapes)
    ensures StaysInBatch(n, skills, k) <==> Unseen(n, names, shapes, skills[k].value)
  {
    var s := skills[k].value;
    if Unseen(n, names, shapes, s) {
      forall j | 0 <= j < k && StaysInBatch(n, skills, j)
        ensures skills[j].Some? && Differs(n, skills[j].value, s)
      {
        assert n.normalize(skills[j].value.name) in names && n.shape(skills[j].value) in shapes;
      }
    }
  }

  lemma SeenOneMore(n: Naming, skills: seq<Option<SkillSpec>>, k: nat, names: set<string>, shapes: set<string>)
    requires k < |skills| && SeenBefore(n, skills, k, names, shapes)
    ensures if StaysInBatch(n, skills, k)
      then SeenBefore(n, skills, k + 1, names + {n.normalize(skills[k].value.name)},
                      shapes + {n.shape(skills[k].value)})
      else SeenBefore(n, skills, k + 1, names, shapes)
  {
  }

  /** The names with that of candidate k if it stays, and the shapes. */
  ghost function NamesWith(n: Naming, skills: seq<Option<SkillSpec>>, k: nat, names: set<string>): set<string>
    requires k < |skills|
  {
    if StaysInBatch(n, skills, k) then names + {n.normalize(skills[k].value.name)} else names
  }

  ghost function ShapesWith(n: Naming, skills: seq<Option<SkillSpec>>, k: nat, shapes: set<string>): set<string>
    requires k < |skills|
  {
    if StaysInBatch(n, skills, k) then shapes + {n.shape(skills[k].value)} else shapes
  }

  lemma NothingFirst(rest: Batch)
    ensures Chained(([], []), rest) == rest
  {
    assert [] + rest.0 == rest.0 && [] + rest.1 == rest.1;
  }

  lemma NothingLast(done: Batch)
    ensures Chained(done, ([], [])) == done
  {
    assert done.0 + [] == done.0 && done.1 + [] == done.1;
  }

  lemma MoveOver(done: Batch, share: Batch, rest: Batch, more: Batch, all: Batch)
    requires more == Chained(done, share) && all == Chained(share, rest)
    ensures Chained(more, rest) == Chained(done, all)
  {
    ChainedTwice(done, share, rest);
  }

  lemma FirstInBatch(n: Naming, skills: seq<Option<SkillSpec>>, k: nat, names: set<string>, shapes: set<string>)
    requires k < |skills| && SeenBefore(n, skills, k, names, shapes)
    ensures Dedup(n, skills[k..], names, shapes) ==
      Chained(InBatch(n, skills, k),
              Dedup(n, skills[k + 1..], NamesWith(n, skills, k, names), ShapesWith(n, skills, k, shapes)))
  {
    assert skills[k..][1..] == skills[k + 1..] && skills[k..][0] == skills[k];
    var rest := Dedup(n, skills[k + 1..], NamesWith(n, skills, k, names), ShapesWith(n, skills, k, shapes));
    if skills[k].None? {
      NothingFirst(rest);
    } else {
      StaysIffUnseen(n, skills, k, names, shapes);
      assert [] + rest.0 == rest.0 && [] + rest.1 == rest.1;
    }
  }

  lemma {:induction false} DedupFrom(n: Naming, skills: seq<Option<SkillSpec>>, k: nat, names: set<string>,
                                     shapes: set<string>)
    requires k <= |skills| && SeenBefore(n, skills, k, names, shapes)
    ensures BatchUpTo(n, skills, |skills|) == Chained(BatchUpTo(n, skills, k), Dedup(n, skills[k..], names, shapes))
    decreases |skills| - k
  {
    if k == |skills| {
      NothingLast(BatchUpTo(n, skills, k));
    } else {
      var names', shapes' := NamesWith(n, skills, k, names), ShapesWith(n, skills, k, shapes);
      SeenOneMore(n, skills, k, names, shapes);
      FirstInBatch(n, skills, k, names, shapes);
      DedupFrom(n, skills, k + 1, names', shapes');
      MoveOver(BatchUpTo(n, skills, k), InBatch(n, skills, k), Dedup(n, skills[k + 1..], names', shapes'),
               BatchUpTo(n, skills, k + 1), Dedup(n, skills[k..], names, shapes));
    }
  }

  /** Dropping duplicates keeps exactly the candidates that stay, in order, and reports exactly the others. */
  lemma DedupIsExact(n: Naming, skills: seq<Option<SkillSpec>>)
    ensures DedupCandidates(n, skills) == if |skills| <= 1 then (skills, []) else BatchUpTo(n, skills, |skills|)
  {
    DedupFrom(n, skills, 0, {}, {});
    assert skills[0..] == skills;
    NothingFirst(Dedup(n, skills, {}, {}));
  }

  /** The existing skill that candidate i is to update by this rule, unless it is to be deleted. */
  function AimOf(c: Context, skill: Option<SkillSpec>): Option<Parent> {
    if skill.None? then None
    else
      var target := TargetOf(c.n, c.rule, c.existing, skill.value);
      if target.Some? && target.value.norm !in c.doomed then target else None
  }

  /**
   What a pass makes of candidate i. Without an aim it is kept. With one it becomes an update if
   the target was not updated before the pass and no candidate before it has the same aim;
   otherwise it is dropped, as a conflict in the first case and as a duplicate in the second.
   */
  function Share(c: Context, skills: seq<Option<SkillSpec>>, i: nat): Outcome
    requires i < |skills|
  {
    if skills[i].None? then Outcome([], [], [])
    else
      var (s, aim) := (skills[i].value, AimOf(c, skills[i]));
      if aim.None? then Outcome([skills[i]], [], [])
      else if aim.value.norm in c.claimed then
        Outcome([], [], [Event(DropConflictsWithExistingUpdate, s.name, aim.value.name)])
      else if exists j :: 0 <= j < i && AimOf(c, skills[j]).Some? && AimOf(c, skills[j]).value.norm == aim.value.norm
      then Outcome([], [], [Event(DropIntraBatchDuplicate, s.name, aim.value.name)])
      else
        var kind := match c.rule
          case Superset => RewriteToUpdate
          case QuantifiedSibling => RewriteQuantifiedSiblingToUpdate
          case WordOverlap => RewriteWordOverlapToUpdate;
        var update := SkillUpdate(aim.value.name, Some(SkillSpec(aim.value.name, s.whenToUse, s.steps, s.rest)));
        Outcome([], [Some(update)], [Event(kind, s.name, aim.value.name)])
  }

  function SharesUpTo(c: Context, skills: seq<Option<SkillSpec>>, k: nat): Outcome
    requires k <= |skills|
  {
    if k == 0 then Outcome([], [], [])
    else Joined(SharesUpTo(c, skills, k - 1), Share(c, skills, k - 1))
  }

  /** The targets that candidates before k have turned into updates. */
  ghost predicate RewrittenBefore(c: Context, skills: seq<Option<SkillSpec>>, k: nat, rewritten: set<string>)
    requires k <= |skills|
  {
    forall x :: x in rewritten <==>
      x !in c.claimed && exists j :: 0 <= j < k && AimOf(c, skills[j]).Some? && AimOf(c, skills[j]).value.norm == x
  }

  lemma RewrittenOneMore(c: Context, rewritten: set<string>, skills: seq<Option<SkillSpec>>, k: nat)
    requires k < |skills| && RewrittenBefore(c, skills, k, rewritten)
    ensures RewrittenBefore(c, skills, k + 1, rewritten + Adds(c, rewritten, skills[k]))
  {
  }

  lemma FirstShare(c: Context, rewritten: set<string>, skills: seq<Option<SkillSpec>>, k: nat)
    requires k < |skills| && RewrittenBefore(c, skills, k, rewritten)
    ensures RewriteFrom(c, rewritten, skills[k..]) ==
      Joined(Share(c, skills, k), RewriteFrom(c, rewritten + Adds(c, rewritten, skills[k]), skills[k + 1..]))
  {
    assert skills[k..][1..] == skills[k + 1..] && skills[k..][0] == skills[k];
    assert rewritten + {} == rewritten;
  }

  lemma JoinedTwice(a: Outcome, b: Outcome, c: Outcome)
    ensures Joined(Joined(a, b), c) == Joined(a, Joined(b, c))
  {
  }

  lemma {:induction false} SharesFrom(c: Context, skills: seq<Option<SkillSpec>>, k: nat, rewritten: set<string>)
    requires k <= |skills| && RewrittenBefore(c, skills, k, rewritten)
    ensures SharesUpTo(c, skills, |skills|) == Joined(SharesUpTo(c, skills, k), RewriteFrom(c, rewritten, skills[k..]))
    decreases |skills| - k
  {
    if k < |skills| {
      var next := rewritten + Adds(c, rewritten, skills[k]);
      FirstShare(c, rewritten, skills, k);
      RewrittenOneMore(c, rewritten, skills, k);
      SharesFrom(c, skills, k + 1, next);
      JoinedTwice(SharesUpTo(c, skills, k), Share(c, skills, k), RewriteFrom(c, next, skills[k + 1..]));
    }
  }

  lemma SharesAreAll(c: Context, skills: seq<Option<SkillSpec>>)
    ensures RewriteFrom(c, {}, skills) == SharesUpTo(c, skills, |skills|)
  {
    SharesFrom(c, skills, 0, {});
    assert skills[0..] == skills;
    var o := RewriteFrom(c, {}, skills);
    assert Joined(Outcome([], [], []), o) == o;
  }

  /** A pass does to every candidate exactly what its share says, in order. */
  lemma PassIsExact(n: Naming, rule: Rule, d: Decision, existing: seq<string>, c: Context)
    requires c.n == n && c.rule == rule && c.existing == existing
    requires forall x :: x in c.doomed <==> exists i :: 0 <= i < |d.deletions| && n.normalize(d.deletions[i]) == x
    requires forall x :: x in c.claimed <==>
      exists i :: 0 <= i < |d.updates| && d.updates[i].Some? && n.normalize(d.updates[i].value.name) == x
    ensures var o := SharesUpTo(c, d.skills, |d.skills|);
      Pass(n, rule, d, existing) ==
        if d.skills == [] || existing == [] || (rule == WordOverlap && forall e :: e in existing ==> |n.words(e)| < 2)
        then (d, [])
        else (Decision(o.kept, d.updates + o.added, d.deletions), o.events)
  {
    assert c.doomed == Doomed(n, d.deletions) && c.claimed == Claimed(n, d.updates);
    assert c == ContextOf(n, rule, d, existing);
    SharesAreAll(c, d.skills);
    NothingIndexed(n, existing);
  }

  lemma {:induction false} NothingIndexed(n: Naming, existing: seq<string>)
    ensures WordIndex(n, existing) == [] <==> forall e :: e in existing ==> |n.words(e)| < 2
  {
    if existing != [] {
      var k := |existing| - 1;
      NothingIndexed(n, existing[..k]);
      assert existing == existing[..k] + [existing[k]];
    }
  }
}
