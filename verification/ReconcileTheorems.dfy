/**
 What reconciliation promises (evolution/reconcile.go:70-287, 488-526, 638-726): no candidate is
 lost, every added update has a sound target of its own, the closest parent wins, and a second
 reconciliation finds nothing left to do.
 */
module ReconcileTheorems {
  import opened Prelude
  import opened Reconcile

  // ----- The index -----

  ghost predicate Descending(xs: seq<Parent>) {
    forall i, j :: 0 <= i < j < |xs| ==> |xs[i].norm| >= |xs[j].norm|
  }

  lemma {:induction false} InsertKeeps(xs: seq<Parent>, x: Parent)
    ensures multiset(Insert(xs, x)) == multiset(xs) + multiset{x}
  {
    if xs != [] && |xs[|xs| - 1].norm| < |x.norm| {
      var n := |xs| - 1;
      InsertKeeps(xs[..n], x);
      assert xs == xs[..n] + [xs[n]];
    }
  }

  lemma {:induction false} InsertBound(xs: seq<Parent>, x: Parent, k: nat)
    requires |x.norm| >= k && forall i :: 0 <= i < |xs| ==> |xs[i].norm| >= k
    ensures forall i :: 0 <= i <= |xs| ==> |Insert(xs, x)[i].norm| >= k
  {
    if xs != [] {
      InsertBound(xs[..|xs| - 1], x, k);
    }
  }

  lemma {:induction false} InsertSorts(xs: seq<Parent>, x: Parent)
    requires Descending(xs)
    ensures Descending(Insert(xs, x)) && multiset(Insert(xs, x)) == multiset(xs) + multiset{x}
  {
    InsertKeeps(xs, x);
    if xs != [] && |xs[|xs| - 1].norm| < |x.norm| {
      var n := |xs| - 1;
      InsertSorts(xs[..n], x);
      InsertBound(xs[..n], x, |xs[n].norm|);
    }
  }

  lemma {:induction false} SortSorts(xs: seq<Parent>)
    ensures Descending(SortDesc(xs)) && multiset(SortDesc(xs)) == multiset(xs)
  {
    if xs != [] {
      var n := |xs| - 1;
      SortSorts(xs[..n]);
      InsertSorts(SortDesc(xs[..n]), xs[n]);
      assert xs == xs[..n] + [xs[n]];
    }
  }

  /** The parents with one length, in order. */
  ghost function OfLength(xs: seq<Parent>, k: nat): seq<Parent> {
    if xs == [] then []
    else OfLength(xs[..|xs| - 1], k) + (if |xs[|xs| - 1].norm| == k then [xs[|xs| - 1]] else [])
  }

  lemma OfLengthSnoc(xs: seq<Parent>, x: Parent, k: nat)
    ensures OfLength(xs + [x], k) == OfLength(xs, k) + (if |x.norm| == k then [x] else [])
  {
    assert (xs + [x])[..|xs|] == xs;
  }

  lemma {:induction false} InsertIsStable(xs: seq<Parent>, x: Parent, k: nat)
    requires Descending(xs)
    ensures OfLength(Insert(xs, x), k) == OfLength(xs, k) + (if |x.norm| == k then [x] else [])
  {
    if xs == [] || |xs[|xs| - 1].norm| >= |x.norm| {
      OfLengthSnoc(xs, x, k);
    } else {
      var n := |xs| - 1;
      InsertIsStable(xs[..n], x, k);
      OfLengthSnoc(Insert(xs[..n], x), xs[n], k);
    }
  }

  /** The sort is a permutation into descending length that keeps the order among equal lengths. */
  lemma {:induction false} SortIsStable(xs: seq<Parent>, k: nat)
    ensures Descending(SortDesc(xs)) && multiset(SortDesc(xs)) == multiset(xs) &&
      OfLength(SortDesc(xs), k) == OfLength(xs, k)
  {
    SortSorts(xs);
    if xs != [] {
      var n := |xs| - 1;
      SortIsStable(xs[..n], k);
      InsertIsStable(SortDesc(xs[..n]), xs[n], k);
    }
  }

  lemma {:induction false} IndexIs(n: Naming, existing: seq<string>)
    ensures forall p :: p in Index(n, existing) <==> p.name in existing && p.norm == n.normalize(p.name) && p.norm != ""
  {
    if existing != [] {
      var k := |existing| - 1;
      IndexIs(n, existing[..k]);
      assert existing == existing[..k] + [existing[k]];
    }
  }

  lemma {:induction false} ByNormIs(n: Naming, existing: seq<string>)
    ensures forall norm ::
      norm in ByNorm(n, existing) <==> norm != "" && exists e :: e in existing && n.normalize(e) == norm
    ensures forall norm :: norm in ByNorm(n, existing) ==>
      ByNorm(n, existing)[norm] in existing && n.normalize(ByNorm(n, existing)[norm]) == norm
  {
    if existing != [] {
      var k := |existing| - 1;
      ByNormIs(n, existing[..k]);
      assert existing == existing[..k] + [existing[k]];
    }
  }

  // ----- The closest parent -----

  lemma {:induction false} MatchFinds(candidate: string, parents: seq<Parent>)
    requires Descending(parents)
    ensures var m := MatchSuperset(candidate, parents);
      (m != "" ==> Qualifies(candidate, m) && exists p :: p in parents && p.norm == m) &&
      forall p :: p in parents && Qualifies(candidate, p.norm) ==> m != "" && |p.norm| <= |m|
  {
    if candidate != "" && parents != [] && !Qualifies(candidate, parents[0].norm) {
      MatchFinds(candidate, parents[1..]);
      assert parents == [parents[0]] + parents[1..];
    } else if candidate != "" && parents != [] {
      assert parents[0] in parents;
    }
  }

  lemma SortedHas(xs: seq<Parent>, p: Parent)
    ensures p in SortDesc(xs) <==> p in xs
  {
    SortSorts(xs);
    assert p in multiset(SortDesc(xs)) <==> p in multiset(xs);
  }

  /**
   The superset rule picks the longest existing name that qualifies as the candidate's parent, and
   picks one exactly when there is one.
   */
  lemma LongestParentWins(n: Naming, existing: seq<string>, c: SkillSpec)
    ensures var target := TargetOf(n, Superset, existing, c);
      (target.Some? <==> exists e :: e in existing && Qualifies(n.normalize(c.name), n.normalize(e))) &&
      (target.Some? ==>
         target.value.name in existing && n.normalize(target.value.name) == target.value.norm &&
         Qualifies(n.normalize(c.name), target.value.norm) &&
         forall e :: e in existing && Qualifies(n.normalize(c.name), n.normalize(e)) ==>
           |n.normalize(e)| <= |target.value.norm|)
  {
    var (candidate, index) := (n.normalize(c.name), Index(n, existing));
    var sorted := SortDesc(index);
    SortSorts(index);
    IndexIs(n, existing);
    ByNormIs(n, existing);
    MatchFinds(candidate, sorted);
    forall e | e in existing && Qualifies(candidate, n.normalize(e))
      ensures MatchSuperset(candidate, sorted) != "" && |n.normalize(e)| <= |MatchSuperset(candidate, sorted)|
    {
      SortedHas(index, Parent(n.normalize(e), e));
    }
    if MatchSuperset(candidate, sorted) != "" {
      var p :| p in sorted && p.norm == MatchSuperset(candidate, sorted);
      SortedHas(index, p);
    }
  }

  lemma {:induction false} WordIndexIs(n: Naming, existing: seq<string>)
    ensures forall e :: e in WordIndex(n, existing) ==> e in existing
  {
    if existing != [] {
      var k := |existing| - 1;
      WordIndexIs(n, existing[..k]);
      assert existing == existing[..k] + [existing[k]];
    }
  }

  /** The best overlap is one of the names, and no name has a higher score. */
  lemma {:induction false} BestIsBest(n: Naming, candidate: string, index: seq<string>)
    ensures var (best, score) := Best(n, candidate, index);
      score >= 0.0 && (score > 0.0 ==> best in index && Score(n, candidate, best) == score) &&
      forall e :: e in index ==> Score(n, candidate, e) <= score
  {
    if index != [] {
      var k := |index| - 1;
      BestIsBest(n, candidate, index[..k]);
      assert index == index[..k] + [index[k]];
    }
  }

  /** Whatever the rule, a target is an existing skill with its own normalized name. */
  lemma TargetExists(n: Naming, rule: Rule, existing: seq<string>, c: SkillSpec)
    ensures var target := TargetOf(n, rule, existing, c);
      target.Some? ==> target.value.name in existing && n.normalize(target.value.name) == target.value.norm
  {
    ByNormIs(n, existing);
    WordIndexIs(n, existing);
    BestIsBest(n, c.name, WordIndex(n, existing));
  }

  // ----- Accounting -----

  function Names(skills: seq<Option<SkillSpec>>): seq<string> {
    if skills == [] then []
    else (if skills[0].None? then [] else [skills[0].value.name]) + Names(skills[1..])
  }

  function Originals(events: seq<Event>): seq<string> {
    if events == [] then [] else [events[0].original] + Originals(events[1..])
  }

  predicate IsRewrite(kind: EventKind) {
    kind.RewriteToUpdate? || kind.RewriteQuantifiedSiblingToUpdate? || kind.RewriteWordOverlapToUpdate?
  }

  /** The targets of the events that record a rewrite. */
  function RewriteTargets(events: seq<Event>): seq<string> {
    if events == [] then []
    else (if IsRewrite(events[0].kind) then [events[0].target] else []) + RewriteTargets(events[1..])
  }

  function UpdateNames(updates: seq<Option<SkillUpdate>>): seq<string> {
    if updates == [] then []
    else (if updates[0].None? then [] else [updates[0].value.name]) + UpdateNames(updates[1..])
  }

  lemma {:induction false} OriginalsConcat(a: seq<Event>, b: seq<Event>)
    ensures Originals(a + b) == Originals(a) + Originals(b)
  {
    if a == [] {
      assert a + b == b;
    } else {
      var ab := a + b;
      assert ab[0] == a[0] && ab[1..] == a[1..] + b;
      OriginalsConcat(a[1..], b);
    }
  }

  lemma {:induction false} TargetsConcat(a: seq<Event>, b: seq<Event>)
    ensures RewriteTargets(a + b) == RewriteTargets(a) + RewriteTargets(b)
  {
    if a == [] {
      assert a + b == b;
    } else {
      var ab := a + b;
      assert ab[0] == a[0] && ab[1..] == a[1..] + b;
      TargetsConcat(a[1..], b);
    }
  }

  lemma {:induction false} UpdateNamesConcat(a: seq<Option<SkillUpdate>>, b: seq<Option<SkillUpdate>>)
    ensures UpdateNames(a + b) == UpdateNames(a) + UpdateNames(b)
  {
    if a == [] {
      assert a + b == b;
    } else {
      var ab := a + b;
      assert ab[0] == a[0] && ab[1..] == a[1..] + b;
      UpdateNamesConcat(a[1..], b);
    }
  }

  /** Every non-nil candidate is among those that stay, or has an event of its own. */
  ghost predicate Accounted(before: seq<Option<SkillSpec>>, after: seq<Option<SkillSpec>>, events: seq<Event>) {
    multiset(Names(before)) == multiset(Names(after)) + multiset(Originals(events))
  }

  lemma NamesCons(s: Option<SkillSpec>, skills: seq<Option<SkillSpec>>)
    ensures Names([s] + skills) == (if s.None? then [] else [s.value.name]) + Names(skills)
  {
    assert ([s] + skills)[1..] == skills;
  }

  lemma OriginalsCons(e: Event, events: seq<Event>)
    ensures Originals([e] + events) == [e.original] + Originals(events)
  {
    assert ([e] + events)[1..] == events;
  }

  lemma KeptAccounted(s: Option<SkillSpec>, before: seq<Option<SkillSpec>>, after: seq<Option<SkillSpec>>,
                      events: seq<Event>)
    requires Accounted(before, after, events)
    ensures Accounted([s] + before, [s] + after, events)
    ensures s.None? ==> Accounted([s] + before, after, events)
  {
    NamesCons(s, before);
    NamesCons(s, after);
  }

  lemma DroppedAccounted(s: SkillSpec, before: seq<Option<SkillSpec>>, after: seq<Option<SkillSpec>>, e: Event,
                         events: seq<Event>)
    requires Accounted(before, after, events) && e.original == s.name
    ensures Accounted([Some(s)] + before, after, [e] + events)
  {
    NamesCons(Some(s), before);
    OriginalsCons(e, events);
  }

  lemma {:induction false} DedupAccounts(n: Naming, skills: seq<Option<SkillSpec>>, names: set<string>,
                                         shapes: set<string>)
    ensures var (out, events) := Dedup(n, skills, names, shapes); Accounted(skills, out, events)
    decreases |skills|
  {
    if skills != [] {
      var rest := skills[1..];
      assert skills == [skills[0]] + rest;
      if skills[0].None? {
        DedupAccounts(n, rest, names, shapes);
        var (out, events) := Dedup(n, rest, names, shapes);
        KeptAccounted(skills[0], rest, out, events);
      } else {
        var s := skills[0].value;
        var (name, shape) := (n.normalize(s.name), n.shape(s));
        if (name in names && name != "") || (shape in shapes && shape != "") {
          DedupAccounts(n, rest, names, shapes);
          var (out, events) := Dedup(n, rest, names, shapes);
          DroppedAccounted(s, rest, out, Event(DropIntraBatchDuplicate, s.name, ""), events);
        } else {
          DedupAccounts(n, rest, names + {name}, shapes + {shape});
          var (out, events) := Dedup(n, rest, names + {name}, shapes + {shape});
          KeptAccounted(skills[0], rest, out, events);
        }
      }
    }
  }

  lemma {:induction false} DedupRewritesNothing(n: Naming, skills: seq<Option<SkillSpec>>, names: set<string>,
                                                shapes: set<string>)
    ensures RewriteTargets(Dedup(n, skills, names, shapes).1) == []
    decreases |skills|
  {
    if skills != [] {
      DedupRewritesNothing(n, skills[1..], names, shapes);
      if skills[0].Some? {
        var s := skills[0].value;
        DedupRewritesNothing(n, skills[1..], names + {n.normalize(s.name)}, shapes + {n.shape(s)});
        var events := Dedup(n, skills[1..], names, shapes).1;
        assert ([Event(DropIntraBatchDuplicate, s.name, "")] + events)[1..] == events;
      }
    }
  }

  /** What a pass makes of candidates: accounted for, with one rewrite event per added update. */
  ghost predicate PassAccounts(skills: seq<Option<SkillSpec>>, o: Outcome) {
    Accounted(skills, o.kept, o.events) && RewriteTargets(o.events) == UpdateNames(o.added)
  }

  lemma {:induction false} RewriteAccounts(c: Context, rewritten: set<string>, skills: seq<Option<SkillSpec>>)
    ensures PassAccounts(skills, RewriteFrom(c, rewritten, skills))
    decreases |skills|, 0
  {
    if skills != [] {
      var rest := skills[1..];
      assert skills == [skills[0]] + rest;
      if skills[0].None? {
        RewriteAccounts(c, rewritten, rest);
        var o := RewriteFrom(c, rewritten, rest);
        KeptAccounted(skills[0], rest, o.kept, o.events);
      } else {
        CandidateAccounts(c, rewritten, skills[0].value, rest);
      }
    }
  }

  lemma {:induction false} CandidateAccounts(c: Context, rewritten: set<string>, s: SkillSpec,
                                             rest: seq<Option<SkillSpec>>)
    ensures PassAccounts([Some(s)] + rest, RewriteFrom(c, rewritten, [Some(s)] + rest))
    decreases |rest|, 1
  {
    assert ([Some(s)] + rest)[1..] == rest;
    match FateOf(c, rewritten, s) {
      case Keep =>
        RewriteAccounts(c, rewritten, rest);
        var o := RewriteFrom(c, rewritten, rest);
        KeptAccounted(Some(s), rest, o.kept, o.events);
      case Drop(kind, name) =>
        RewriteAccounts(c, rewritten, rest);
        DropAccounts(s, rest, RewriteFrom(c, rewritten, rest), Event(kind, s.name, name));
      case Rewrite(into) =>
        RewriteAccounts(c, rewritten + {into.norm}, rest);
        var e := Event(KindOf(c.rule), s.name, into.name);
        RewriteOneAccounts(s, rest, RewriteFrom(c, rewritten + {into.norm}, rest), e, into);
    }
  }

  lemma DropAccounts(s: SkillSpec, rest: seq<Option<SkillSpec>>, o: Outcome, e: Event)
    requires PassAccounts(rest, o) && e.original == s.name && !IsRewrite(e.kind)
    ensures PassAccounts([Some(s)] + rest, o.(events := [e] + o.events))
  {
    DroppedAccounted(s, rest, o.kept, e, o.events);
    assert ([e] + o.events)[1..] == o.events;
  }

  lemma RewriteOneAccounts(s: SkillSpec, rest: seq<Option<SkillSpec>>, o: Outcome, e: Event, into: Parent)
    requires PassAccounts(rest, o) && e.original == s.name && IsRewrite(e.kind) && e.target == into.name
    ensures PassAccounts([Some(s)] + rest, o.(added := [UpdateOf(s, into)] + o.added, events := [e] + o.events))
  {
    DroppedAccounted(s, rest, o.kept, e, o.events);
    assert ([e] + o.events)[1..] == o.events;
    assert ([UpdateOf(s, into)] + o.added)[1..] == o.added;
  }

  // ----- Added updates -----

  /** u updates an existing skill that is not to be deleted, to a candidate of that skill's name. */
  ghost predicate SoundUpdate(n: Naming, existing: seq<string>, doomed: set<string>, skills: seq<Option<SkillSpec>>,
                              u: Option<SkillUpdate>) {
    u.Some? && u.value.name in existing && n.normalize(u.value.name) !in doomed &&
    exists s :: Some(s) in skills && u.value.newSpec == Some(s.(name := u.value.name))
  }

  /** Targets that no update had before, each only once. */
  ghost predicate NewTargets(n: Naming, taken: set<string>, added: seq<Option<SkillUpdate>>) {
    (forall i :: 0 <= i < |added| ==> added[i].Some? && n.normalize(added[i].value.name) !in taken) &&
    forall i, j :: 0 <= i < j < |added| ==> n.normalize(added[i].value.name) != n.normalize(added[j].value.name)
  }

  /** The target that a candidate adds to those rewritten. */
  function Adds(c: Context, rewritten: set<string>, s: Option<SkillSpec>): set<string> {
    if s.None? then {}
    else match FateOf(c, rewritten, s.value)
         case Rewrite(into) => {into.norm}
         case _ => {}
  }

  lemma RewriteTail(c: Context, rewritten: set<string>, skills: seq<Option<SkillSpec>>)
    requires skills != []
    ensures var (o, tail) := (RewriteFrom(c, rewritten, skills),
                              RewriteFrom(c, rewritten + Adds(c, rewritten, skills[0]), skills[1..]));
      if Adds(c, rewritten, skills[0]) == {} then o.added == tail.added
      else skills[0].Some? && FateOf(c, rewritten, skills[0].value).Rewrite? &&
           o.added == [UpdateOf(skills[0].value, FateOf(c, rewritten, skills[0].value).into)] + tail.added
  {
    assert rewritten + {} == rewritten;
  }

  lemma {:induction false} RewriteAddsNew(c: Context, rewritten: set<string>, skills: seq<Option<SkillSpec>>)
    ensures NewTargets(c.n, c.claimed + rewritten, RewriteFrom(c, rewritten, skills).added)
    decreases |skills|
  {
    if skills != [] {
      var adds := Adds(c, rewritten, skills[0]);
      RewriteTail(c, rewritten, skills);
      RewriteAddsNew(c, rewritten + adds, skills[1..]);
      var tail := RewriteFrom(c, rewritten + adds, skills[1..]).added;
      if adds != {} {
        var s, into := skills[0].value, FateOf(c, rewritten, skills[0].value).into;
        TargetExists(c.n, c.rule, c.existing, s);
        assert c.claimed + (rewritten + adds) == c.claimed + rewritten + {into.norm};
        NewTargetsCons(c.n, c.claimed + rewritten, into.norm, UpdateOf(s, into), tail);
      } else {
        assert rewritten + adds == rewritten;
      }
    }
  }

  lemma NewTargetsCons(n: Naming, taken: set<string>, norm: string, u: Option<SkillUpdate>,
                       added: seq<Option<SkillUpdate>>)
    requires u.Some? && n.normalize(u.value.name) == norm && norm !in taken && NewTargets(n, taken + {norm}, added)
    ensures NewTargets(n, taken, [u] + added)
  {
  }

  lemma {:induction false} RewriteAddsSoundly(c: Context, rewritten: set<string>, skills: seq<Option<SkillSpec>>)
    ensures forall u :: u in RewriteFrom(c, rewritten, skills).added ==>
      SoundUpdate(c.n, c.existing, c.doomed, skills, u)
    decreases |skills|
  {
    if skills != [] {
      var adds := Adds(c, rewritten, skills[0]);
      RewriteTail(c, rewritten, skills);
      RewriteAddsSoundly(c, rewritten + adds, skills[1..]);
      var tail := RewriteFrom(c, rewritten + adds, skills[1..]).added;
      forall u | u in tail ensures SoundUpdate(c.n, c.existing, c.doomed, skills, u) {
        var s :| Some(s) in skills[1..] && u.value.newSpec == Some(s.(name := u.value.name));
        assert Some(s) in skills;
      }
      if adds != {} {
        FirstIsSound(c, rewritten, skills);
      }
    }
  }

  lemma FirstIsSound(c: Context, rewritten: set<string>, skills: seq<Option<SkillSpec>>)
    requires skills != [] && skills[0].Some? && FateOf(c, rewritten, skills[0].value).Rewrite?
    ensures SoundUpdate(c.n, c.existing, c.doomed, skills,
                        UpdateOf(skills[0].value, FateOf(c, rewritten, skills[0].value).into))
  {
    TargetExists(c.n, c.rule, c.existing, skills[0].value);
    assert skills[0] in skills;
  }

  /** Updates with different normalized targets. */
  ghost predicate DistinctTargets(n: Naming, updates: seq<Option<SkillUpdate>>) {
    forall i, j :: 0 <= i < j < |updates| && updates[i].Some? && updates[j].Some? ==>
      n.normalize(updates[i].value.name) != n.normalize(updates[j].value.name)
  }

  lemma TargetsStayDistinct(n: Naming, updates: seq<Option<SkillUpdate>>, added: seq<Option<SkillUpdate>>)
    requires DistinctTargets(n, updates) && NewTargets(n, Claimed(n, updates), added)
    ensures DistinctTargets(n, updates + added)
  {
    var all := updates + added;
    forall i, j | 0 <= i < j < |all| && all[i].Some? && all[j].Some?
      ensures n.normalize(all[i].value.name) != n.normalize(all[j].value.name)
    {
      if i < |updates| <= j {
        assert n.normalize(updates[i].value.name) in Claimed(n, updates);
        assert all[j] == added[j - |updates|];
      } else if |updates| <= i {
        assert all[i] == added[i - |updates|] && all[j] == added[j - |updates|];
      }
    }
  }

  // ----- One pass -----

  /** The updates grow at their end, by one for each rewrite event, each against a skill that stays. */
  ghost predicate Grows(n: Naming, existing: seq<string>, doomed: set<string>, before: seq<Option<SkillUpdate>>,
                        after: seq<Option<SkillUpdate>>, events: seq<Event>) {
    before <= after && UpdateNames(after[|before|..]) == RewriteTargets(events) &&
    forall u :: u in after[|before|..] ==> u.Some? && u.value.name in existing && n.normalize(u.value.name) !in doomed
  }

  /** What one pass, or several, do to a decision. */
  ghost predicate Conservative(n: Naming, existing: seq<string>, d: Decision, d': Decision, events: seq<Event>) {
    d'.deletions == d.deletions && Accounted(d.skills, d'.skills, events) &&
    Grows(n, existing, Doomed(n, d.deletions), d.updates, d'.updates, events) &&
    (DistinctTargets(n, d.updates) ==> DistinctTargets(n, d'.updates))
  }

  lemma Unchanged(n: Naming, existing: seq<string>, d: Decision)
    ensures Conservative(n, existing, d, d, [])
  {
    assert d.updates[|d.updates|..] == [];
  }

  lemma PassIsConservative(n: Naming, rule: Rule, d: Decision, existing: seq<string>)
    ensures var (d', events) := Pass(n, rule, d, existing); Conservative(n, existing, d, d', events)
  {
    if Skips(n, rule, d, existing) {
      Unchanged(n, existing, d);
    } else {
      var c := ContextOf(n, rule, d, existing);
      var o := RewriteFrom(c, {}, d.skills);
      RewriteAccounts(c, {}, d.skills);
      RewriteAddsNew(c, {}, d.skills);
      RewriteAddsSoundly(c, {}, d.skills);
      assert (d.updates + o.added)[|d.updates|..] == o.added;
      assert c.claimed + {} == Claimed(n, d.updates);
      if DistinctTargets(n, d.updates) {
        TargetsStayDistinct(n, d.updates, o.added);
      }
    }
  }

  lemma GrowsTransitive(n: Naming, existing: seq<string>, doomed: set<string>, u0: seq<Option<SkillUpdate>>,
                        u1: seq<Option<SkillUpdate>>, u2: seq<Option<SkillUpdate>>, e1: seq<Event>, e2: seq<Event>)
    requires Grows(n, existing, doomed, u0, u1, e1) && Grows(n, existing, doomed, u1, u2, e2)
    ensures Grows(n, existing, doomed, u0, u2, e1 + e2)
  {
    var (a, b) := (u1[|u0|..], u2[|u1|..]);
    assert u2[|u0|..] == a + b;
    UpdateNamesConcat(a, b);
    TargetsConcat(e1, e2);
  }

  lemma AccountedTransitive(s0: seq<Option<SkillSpec>>, s1: seq<Option<SkillSpec>>, s2: seq<Option<SkillSpec>>,
                            e1: seq<Event>, e2: seq<Event>)
    requires Accounted(s0, s1, e1) && Accounted(s1, s2, e2)
    ensures Accounted(s0, s2, e1 + e2)
  {
    OriginalsConcat(e1, e2);
  }

  lemma ConservativeTransitive(n: Naming, existing: seq<string>, d: Decision, d1: Decision, d2: Decision,
                               e1: seq<Event>, e2: seq<Event>)
    requires Conservative(n, existing, d, d1, e1) && Conservative(n, existing, d1, d2, e2)
    ensures Conservative(n, existing, d, d2, e1 + e2)
  {
    AccountedTransitive(d.skills, d1.skills, d2.skills, e1, e2);
    GrowsTransitive(n, existing, Doomed(n, d.deletions), d.updates, d1.updates, d2.updates, e1, e2);
  }

  /**
   Reconciliation is conservative and conflict-free: the non-nil candidates are those that stay
   plus one event each for the others, the updates grow at the end by exactly the targets of the
   rewrite events, each an existing skill that is not pending deletion, and updates with distinct
   normalized targets stay so through all passes.
   */
  lemma ReconcilesConservatively(n: Naming, d: Decision, existing: seq<string>)
    ensures var (d', events) := Reconciled(n, d, existing); Conservative(n, existing, d, d', events)
  {
    var (skills, e0) := DedupCandidates(n, d.skills);
    var d0 := d.(skills := skills);
    var (d1, e1) := Pass(n, Superset, d0, existing);
    var (d2, e2) := Pass(n, QuantifiedSibling, d1, existing);
    var (d3, e3) := Pass(n, WordOverlap, d2, existing);
    DedupAccounts(n, d.skills, {}, {});
    DedupRewritesNothing(n, d.skills, {}, {});
    assert d.updates[|d.updates|..] == [];
    assert Conservative(n, existing, d, d0, e0);
    PassIsConservative(n, Superset, d0, existing);
    ConservativeTransitive(n, existing, d, d0, d1, e0, e1);
    PassIsConservative(n, QuantifiedSibling, d1, existing);
    ConservativeTransitive(n, existing, d, d1, d2, e0 + e1, e2);
    PassIsConservative(n, WordOverlap, d2, existing);
    ConservativeTransitive(n, existing, d, d2, d3, e0 + e1 + e2, e3);
  }

  // ----- A second run -----

  /** t does not repeat s. */
  ghost predicate Differs(n: Naming, s: SkillSpec, t: SkillSpec) {
    (n.normalize(s.name) == n.normalize(t.name) ==> n.normalize(s.name) == "") &&
    (n.shape(s) == n.shape(t) ==> n.shape(s) == "")
  }

  /** No nil candidates, and none that repeats an earlier one. */
  ghost predicate Unrepeated(n: Naming, skills: seq<Option<SkillSpec>>) {
    skills == [] ||
    (skills[0].Some? && (forall t :: Some(t) in skills[1..] ==> Differs(n, skills[0].value, t)) &&
     Unrepeated(n, skills[1..]))
  }

  /** s repeats nothing that was seen. */
  ghost predicate Unseen(n: Naming, names: set<string>, shapes: set<string>, s: SkillSpec) {
    (n.normalize(s.name) in names ==> n.normalize(s.name) == "") && (n.shape(s) in shapes ==> n.shape(s) == "")
  }

  lemma {:induction false} DedupSettles(n: Naming, skills: seq<Option<SkillSpec>>, names: set<string>,
                                        shapes: set<string>)
    ensures var out := Dedup(n, skills, names, shapes).0;
      Unrepeated(n, out) && forall s :: Some(s) in out ==> Unseen(n, names, shapes, s)
    decreases |skills|
  {
    if skills != [] {
      var rest := skills[1..];
      DedupSettles(n, rest, names, shapes);
      if skills[0].Some? && Unseen(n, names, shapes, skills[0].value) {
        var s := skills[0].value;
        DedupSettles(n, rest, names + {n.normalize(s.name)}, shapes + {n.shape(s)});
        var out := Dedup(n, rest, names + {n.normalize(s.name)}, shapes + {n.shape(s)}).0;
        assert ([skills[0]] + out)[1..] == out;
        forall t | Some(t) in out ensures Differs(n, s, t) {
          assert Unseen(n, names + {n.normalize(s.name)}, shapes + {n.shape(s)}, t);
        }
      }
    }
  }

  lemma {:induction false} DedupIsDone(n: Naming, skills: seq<Option<SkillSpec>>, names: set<string>,
                                       shapes: set<string>)
    requires Unrepeated(n, skills) && forall s :: Some(s) in skills ==> Unseen(n, names, shapes, s)
    ensures Dedup(n, skills, names, shapes) == (skills, [])
    decreases |skills|
  {
    if skills != [] {
      var s, rest := skills[0].value, skills[1..];
      assert Some(s) in skills && Unseen(n, names, shapes, s);
      forall t | Some(t) in rest ensures Unseen(n, names + {n.normalize(s.name)}, shapes + {n.shape(s)}, t) {
        assert Some(t) in skills && Differs(n, s, t);
      }
      DedupIsDone(n, rest, names + {n.normalize(s.name)}, shapes + {n.shape(s)});
      assert skills == [skills[0]] + rest;
    }
  }

  /** This rule leaves s alone, whatever else is rewritten. */
  predicate Stays(n: Naming, rule: Rule, existing: seq<string>, doomed: set<string>, s: SkillSpec) {
    var target := TargetOf(n, rule, existing, s);
    target.None? || target.value.norm in doomed
  }

  ghost predicate AllStay(c: Context, skills: seq<Option<SkillSpec>>) {
    forall i :: 0 <= i < |skills| ==> skills[i].Some? && Stays(c.n, c.rule, c.existing, c.doomed, skills[i].value)
  }

  /** What a pass keeps stays by its rule, and is a selection of what was there. */
  lemma {:induction false} KeptStay(c: Context, rewritten: set<string>, skills: seq<Option<SkillSpec>>)
    ensures var kept := RewriteFrom(c, rewritten, skills).kept;
      AllStay(c, kept) && (forall s :: s in kept ==> s in skills) && (Unrepeated(c.n, skills) ==> Unrepeated(c.n, kept))
    decreases |skills|
  {
    if skills != [] {
      var adds, rest := Adds(c, rewritten, skills[0]), skills[1..];
      assert rewritten + {} == rewritten;
      KeptStay(c, rewritten + adds, rest);
      var tail := RewriteFrom(c, rewritten + adds, rest).kept;
      assert forall s :: s in rest ==> s in skills;
      if skills[0].Some? && FateOf(c, rewritten, skills[0].value).Keep? {
        assert ([skills[0]] + tail)[1..] == tail;
      }
    }
  }

  lemma {:induction false} StayingIsDone(c: Context, skills: seq<Option<SkillSpec>>)
    requires AllStay(c, skills)
    ensures RewriteFrom(c, {}, skills) == Outcome(skills, [], [])
    decreases |skills|
  {
    if skills != [] {
      StayingIsDone(c, skills[1..]);
      assert skills == [skills[0]] + skills[1..];
    }
  }

  /** A decision on which this rule finds nothing to do. */
  ghost predicate Done(n: Naming, rule: Rule, d: Decision, existing: seq<string>) {
    Skips(n, rule, d, existing) || AllStay(ContextOf(n, rule, d, existing), d.skills)
  }

  lemma DoneIsUnchanged(n: Naming, rule: Rule, d: Decision, existing: seq<string>)
    requires Done(n, rule, d, existing)
    ensures Pass(n, rule, d, existing) == (d, [])
  {
    if !Skips(n, rule, d, existing) {
      StayingIsDone(ContextOf(n, rule, d, existing), d.skills);
      assert d.updates + [] == d.updates;
    }
  }

  /** A pass is done with its own rule, and undoes neither an earlier rule nor the dropping of duplicates. */
  lemma PassSettles(n: Naming, rule: Rule, d: Decision, existing: seq<string>)
    ensures var d' := Pass(n, rule, d, existing).0;
      Done(n, rule, d', existing) && |d'.skills| <= |d.skills| &&
      (forall other :: Done(n, other, d, existing) ==> Done(n, other, d', existing)) &&
      (Unrepeated(n, d.skills) ==> Unrepeated(n, d'.skills))
  {
    var d' := Pass(n, rule, d, existing).0;
    if !Skips(n, rule, d, existing) {
      var c := ContextOf(n, rule, d, existing);
      KeptStay(c, {}, d.skills);
      KeptIsShorter(c, {}, d.skills);
      assert AllStay(ContextOf(n, rule, d', existing), d'.skills);
      forall other | Done(n, other, d, existing) ensures Done(n, other, d', existing) {
        if !Skips(n, other, d, existing) {
          StaySelected(ContextOf(n, other, d, existing), d.skills, ContextOf(n, other, d', existing), d'.skills);
        }
      }
    }
  }

  lemma StaySelected(c: Context, skills: seq<Option<SkillSpec>>, c': Context, kept: seq<Option<SkillSpec>>)
    requires AllStay(c, skills) && c' == c.(claimed := c'.claimed) && forall s :: s in kept ==> s in skills
    ensures AllStay(c', kept)
  {
    forall i | 0 <= i < |kept| ensures kept[i].Some? && Stays(c'.n, c'.rule, c'.existing, c'.doomed, kept[i].value) {
      assert kept[i] in skills;
    }
  }

  lemma {:induction false} KeptIsShorter(c: Context, rewritten: set<string>, skills: seq<Option<SkillSpec>>)
    ensures |RewriteFrom(c, rewritten, skills).kept| <= |skills|
    decreases |skills|
  {
    if skills != [] {
      assert rewritten + {} == rewritten;
      KeptIsShorter(c, rewritten + Adds(c, rewritten, skills[0]), skills[1..]);
    }
  }

  /** Candidates that dropping duplicates leaves as they are. */
  ghost predicate Deduped(n: Naming, skills: seq<Option<SkillSpec>>) {
    |skills| <= 1 || Unrepeated(n, skills)
  }

  lemma DedupedIsUnchanged(n: Naming, skills: seq<Option<SkillSpec>>)
    requires Deduped(n, skills)
    ensures DedupCandidates(n, skills) == (skills, [])
  {
    if |skills| > 1 {
      DedupIsDone(n, skills, {}, {});
    }
  }

  /** A decision on which nothing is left to do. */
  ghost predicate Settled(n: Naming, d: Decision, existing: seq<string>) {
    Deduped(n, d.skills) && forall rule :: Done(n, rule, d, existing)
  }

  lemma DedupIsDeduped(n: Naming, skills: seq<Option<SkillSpec>>)
    ensures Deduped(n, DedupCandidates(n, skills).0)
  {
    DedupSettles(n, skills, {}, {});
  }

  lemma PassKeepsDeduped(n: Naming, rule: Rule, d: Decision, existing: seq<string>)
    requires Deduped(n, d.skills)
    ensures Deduped(n, Pass(n, rule, d, existing).0.skills)
  {
    PassSettles(n, rule, d, existing);
  }

  lemma ReconciledSettles(n: Naming, d: Decision, existing: seq<string>)
    ensures Settled(n, Reconciled(n, d, existing).0, existing)
  {
    var d0 := d.(skills := DedupCandidates(n, d.skills).0);
    var d1 := Pass(n, Superset, d0, existing).0;
    var d2 := Pass(n, QuantifiedSibling, d1, existing).0;
    var d3 := Pass(n, WordOverlap, d2, existing).0;
    assert Reconciled(n, d, existing).0 == d3;
    DedupIsDeduped(n, d.skills);
    PassKeepsDeduped(n, Superset, d0, existing);
    PassKeepsDeduped(n, QuantifiedSibling, d1, existing);
    PassKeepsDeduped(n, WordOverlap, d2, existing);
    PassSettles(n, Superset, d0, existing);
    PassSettles(n, QuantifiedSibling, d1, existing);
    PassSettles(n, WordOverlap, d2, existing);
    forall rule ensures Done(n, rule, d3, existing) {
      match rule
      case Superset => assert Done(n, Superset, d2, existing);
      case QuantifiedSibling => assert Done(n, QuantifiedSibling, d2, existing);
      case WordOverlap =>
    }
  }

  lemma SettledIsUnchanged(n: Naming, d: Decision, existing: seq<string>)
    requires Settled(n, d, existing)
    ensures Reconciled(n, d, existing) == (d, [])
  {
    DedupedIsUnchanged(n, d.skills);
    assert d.(skills := d.skills) == d;
    var none: seq<Event> := [];
    assert none + none + none + none == none;
    DoneIsUnchanged(n, Superset, d, existing);
    DoneIsUnchanged(n, QuantifiedSibling, d, existing);
    DoneIsUnchanged(n, WordOverlap, d, existing);
  }

  /** Reconciling a reconciled decision changes nothing and reports nothing. */
  lemma ReconcileIsIdempotent(n: Naming, d: Decision, existing: seq<string>)
    ensures var d' := Reconciled(n, d, existing).0; Reconciled(n, d', existing) == (d', [])
  {
    ReconciledSettles(n, d, existing);
    SettledIsUnchanged(n, Reconciled(n, d, existing).0, existing);
  }
}
