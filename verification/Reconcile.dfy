/**
 The library-aware fixes to a review decision (evolution/reconcile.go): candidates of one batch
 that repeat each other are dropped, and candidates that only vary an existing skill become
 updates of it. A string is its bytes, one char each. What the code does with regular expressions
 and letter case is a parameter: the properties hold for every choice of it.
 */
module Reconcile {
  import opened Prelude

  /** `rest` is everything of a skill that no rule looks at. */
  datatype SkillSpec = SkillSpec(name: string, whenToUse: string, steps: seq<string>, rest: nat)

  datatype SkillUpdate = SkillUpdate(name: string, newSpec: Option<SkillSpec>)

  /** A None among the skills or updates is a nil entry. */
  datatype Decision = Decision(skills: seq<Option<SkillSpec>>, updates: seq<Option<SkillUpdate>>,
                               deletions: seq<string>)

  /**
   normalizeSkillName, candidateShapeKey, quantifiedFamilyKey, hasMultiplicityMarker, hasExplicitCount,
   significantWords.
   */
  datatype Naming = Naming(
    normalize: string -> string,
    shape: SkillSpec -> string,
    family: string -> string,
    multiplicity: string -> bool,
    counted: string -> bool,
    words: string -> set<string>)

  datatype EventKind =
    | RewriteToUpdate
    | DropIntraBatchDuplicate
    | DropConflictsWithExistingUpdate
    | RewriteQuantifiedSiblingToUpdate
    | RewriteWordOverlapToUpdate

  datatype Event = Event(kind: EventKind, original: string, target: string)

  // ----- Duplicates within the batch -----

  /** The candidates that stay and one event for every other one; nil candidates vanish. */
  function Dedup(n: Naming, skills: seq<Option<SkillSpec>>, names: set<string>, shapes: set<string>)
    : (seq<Option<SkillSpec>>, seq<Event>)
    decreases |skills|
  {
    if skills == [] then ([], [])
    else if skills[0].None? then Dedup(n, skills[1..], names, shapes)
    else
      var s := skills[0].value;
      var (name, shape) := (n.normalize(s.name), n.shape(s));
      if (name in names && name != "") || (shape in shapes && shape != "") then
        var (out, events) := Dedup(n, skills[1..], names, shapes);
        (out, [Event(DropIntraBatchDuplicate, s.name, "")] + events)
      else
        var (out, events) := Dedup(n, skills[1..], names + {name}, shapes + {shape});
        ([skills[0]] + out, events)
  }

  function DedupCandidates(n: Naming, skills: seq<Option<SkillSpec>>): (seq<Option<SkillSpec>>, seq<Event>) {
    if |skills| <= 1 then (skills, []) else Dedup(n, skills, {}, {})
  }

  method DedupCandidateSkills(n: Naming, skills: seq<Option<SkillSpec>>)
    returns (out: seq<Option<SkillSpec>>, events: seq<Event>)
    ensures (out, events) == DedupCandidates(n, skills)
  {
    if |skills| <= 1 {
      return skills, [];
    }
    var names, shapes: set<string> := {}, {};
    out, events := [], [];
    assert skills[0..] == skills;
    ghost var (all, every) := Dedup(n, skills, {}, {});
    assert out + all == all && events + every == every;
    for i := 0 to |skills|
      invariant var (more, later) := Dedup(n, skills[i..], names, shapes);
        (all, every) == (out + more, events + later)
    {
      assert skills[i..][1..] == skills[i + 1..];
      ghost var (more, later) := Dedup(n, skills[i..], names, shapes);
      if skills[i].Some? {
        var s := skills[i].value;
        var name, shape := n.normalize(s.name), n.shape(s);
        if (name in names && name != "") || (shape in shapes && shape != "") {
          ghost var tail := Dedup(n, skills[i + 1..], names, shapes).1;
          assert events + later == events + [Event(DropIntraBatchDuplicate, s.name, "")] + tail;
          events := events + [Event(DropIntraBatchDuplicate, s.name, "")];
        } else {
          names, shapes := names + {name}, shapes + {shape};
          ghost var tail := Dedup(n, skills[i + 1..], names, shapes).0;
          assert out + more == out + [skills[i]] + tail;
          out := out + [skills[i]];
        }
      }
    }
    assert out + [] == out && events + [] == events;
  }

  // ----- The index of existing skills -----

  datatype Parent = Parent(norm: string, name: string)

  function Index(n: Naming, existing: seq<string>): seq<Parent> {
    if existing == [] then []
    else
      var (front, last) := (existing[..|existing| - 1], existing[|existing| - 1]);
      Index(n, front) + (if n.normalize(last) == "" then [] else [Parent(n.normalize(last), last)])
  }

  /** parentByNorm: of several skills with one normalized name the last one. */
  function ByNorm(n: Naming, existing: seq<string>): map<string, string> {
    if existing == [] then map[]
    else
      var (front, last) := (existing[..|existing| - 1], existing[|existing| - 1]);
      if n.normalize(last) == "" then ByNorm(n, front) else ByNorm(n, front)[n.normalize(last) := last]
  }

  /** Stable insertion before the shorter names at the end. */
  function Insert(xs: seq<Parent>, x: Parent): (r: seq<Parent>)
    ensures |r| == |xs| + 1
  {
    if xs == [] || |xs[|xs| - 1].norm| >= |x.norm| then xs + [x]
    else Insert(xs[..|xs| - 1], x) + [xs[|xs| - 1]]
  }

  function SortDesc(xs: seq<Parent>): (r: seq<Parent>)
    ensures |r| == |xs|
  {
    if xs == [] then [] else Insert(SortDesc(xs[..|xs| - 1]), xs[|xs| - 1])
  }

  /** sortIndexByLengthDesc: the insertion sort, by swaps, in place. */
  method SortIndexByLengthDesc(xs: array<Parent>)
    modifies xs
    ensures xs[..] == SortDesc(old(xs[..]))
  {
    ghost var was := xs[..];
    if xs.Length == 0 {
      return;
    }
    var i := 1;
    SortPrefix(was, 0);
    while i < xs.Length
      invariant 1 <= i <= xs.Length && xs.Length == |was|
      invariant xs[..i] == SortDesc(was[..i]) && xs[i..] == was[i..]
    {
      SortPrefix(was, i);
      SinkIntoPlace(xs, i);
      i := i + 1;
    }
    assert was[..i] == was && xs[..i] == xs[..];
  }

  lemma SortPrefix(xs: seq<Parent>, i: nat)
    requires i < |xs|
    ensures SortDesc(xs[..i + 1]) == Insert(SortDesc(xs[..i]), xs[i])
    ensures i == 0 ==> SortDesc(xs[..i + 1]) == xs[..1]
  {
    assert xs[..i + 1][..i] == xs[..i];
  }

  /** The inner loop: moves element i left over the shorter ones before it. */
  method SinkIntoPlace(xs: array<Parent>, i: nat)
    requires i < xs.Length
    modifies xs
    ensures xs[..i + 1] == Insert(old(xs[..i]), old(xs[i])) && xs[i + 1..] == old(xs[i + 1..])
  {
    ghost var before, x := xs[..i], xs[i];
    var j := i;
    assert xs[..i + 1] == before[..j] + [x] + before[j..];
    assert before[..i] == before && before[i..] == [];
    assert Insert(before, x) == Insert(before[..j], x) + before[j..];
    while j > 0 && |xs[j - 1].norm| < |xs[j].norm|
      invariant 0 <= j <= i && xs[j] == x && (j > 0 ==> xs[j - 1] == before[j - 1])
      invariant xs[..i + 1] == before[..j] + [x] + before[j..] && xs[i + 1..] == old(xs[i + 1..])
      invariant Insert(before, x) == Insert(before[..j], x) + before[j..]
    {
      InsertPast(before, x, j);
      Swapped(before, x, j, xs[..i + 1]);
      ghost var row := xs[..i + 1];
      xs[j - 1], xs[j] := xs[j], xs[j - 1];
      assert xs[..i + 1] == row[j - 1 := x][j := before[j - 1]];
      j := j - 1;
      if j > 0 {
        assert xs[..i + 1][j - 1] == before[j - 1];
      }
    }
  }

  lemma InsertPast(before: seq<Parent>, x: Parent, j: nat)
    requires 0 < j <= |before| && |before[j - 1].norm| < |x.norm|
    ensures Insert(before[..j], x) + before[j..] == Insert(before[..j - 1], x) + before[j - 1..]
  {
    assert before[..j][..j - 1] == before[..j - 1] && before[j - 1..] == [before[j - 1]] + before[j..];
  }

  lemma Swapped(before: seq<Parent>, x: Parent, j: nat, xs: seq<Parent>)
    requires 0 < j <= |before| && xs == before[..j] + [x] + before[j..]
    ensures xs[j - 1 := x][j := before[j - 1]] == before[..j - 1] + [x] + before[j - 1..]
  {
  }

  method BuildIndex(n: Naming, existing: seq<string>) returns (parents: seq<Parent>, byNorm: map<string, string>)
    ensures parents == SortDesc(Index(n, existing)) && byNorm == ByNorm(n, existing)
  {
    parents, byNorm := [], map[];
    for i := 0 to |existing|
      invariant parents == Index(n, existing[..i]) && byNorm == ByNorm(n, existing[..i])
    {
      assert existing[..i + 1][..i] == existing[..i];
      var norm := n.normalize(existing[i]);
      if norm != "" {
        parents, byNorm := parents + [Parent(norm, existing[i])], byNorm[norm := existing[i]];
      }
    }
    assert existing[..|existing|] == existing;
    var xs := new Parent[|parents|](k requires 0 <= k < |parents| => parents[k]);
    assert xs[..] == parents;
    SortIndexByLengthDesc(xs);
    parents := xs[..];
  }

  // ----- Rule 1: strict supersets -----

  predicate SeparatorHead(c: char) {
    c in {'-', ':', '(', '[', '/', '|', '_', '.'}
  }

  predicate VersionHead(s: string) {
    |s| >= 2 && (s[0] == 'v' || s[0] == 'V') && '0' <= s[1] <= '9'
  }

  function TrimLeft(s: string): string {
    if s != "" && (s[0] == ' ' || s[0] == '\t') then TrimLeft(s[1..]) else s
  }

  predicate IsTaskVariantSeparator(rest: string) {
    rest != "" &&
    if SeparatorHead(rest[0]) then true
    else if rest[0] == ' ' || rest[0] == '\t' then
      var trimmed := TrimLeft(rest);
      trimmed != "" && (SeparatorHead(trimmed[0]) || VersionHead(trimmed))
    else VersionHead(rest)
  }

  /** p is the candidate's name, or the candidate's name is p with a task-variant suffix. */
  predicate Qualifies(candidate: string, p: string) {
    p != "" && (candidate == p || (p <= candidate && IsTaskVariantSeparator(candidate[|p|..])))
  }

  /** The first parent that qualifies; "" when none does. */
  function MatchSuperset(candidate: string, parents: seq<Parent>): string {
    if candidate == "" || parents == [] then ""
    else if Qualifies(candidate, parents[0].norm) then parents[0].norm
    else MatchSuperset(candidate, parents[1..])
  }

  method MatchSupersetParent(candidate: string, parents: seq<Parent>) returns (norm: string)
    ensures norm == MatchSuperset(candidate, parents)
  {
    if candidate == "" {
      return "";
    }
    assert parents[0..] == parents;
    for i := 0 to |parents|
      invariant MatchSuperset(candidate, parents) == MatchSuperset(candidate, parents[i..])
    {
      assert parents[i..][1..] == parents[i + 1..];
      var p := parents[i];
      if p.norm != "" && |p.norm| <= |candidate| {
        if candidate == p.norm {
          return p.norm;
        }
        if p.norm == candidate[..|p.norm|] && IsTaskVariantSeparator(candidate[|p.norm|..]) {
          return p.norm;
        }
      }
    }
    return "";
  }

  // ----- Rule 3: quantified siblings -----

  predicate IsGenericQuantifiedParent(n: Naming, norm: string) {
    n.multiplicity(norm) || !n.counted(norm)
  }

  predicate IsGenericSibling(n: Naming, candidate: string, p: string) {
    p != "" && p != candidate && n.family(p) == n.family(candidate) && IsGenericQuantifiedParent(n, p)
  }

  function MatchSibling(n: Naming, candidate: string, parents: seq<Parent>): string {
    if n.family(candidate) == "" || n.family(candidate) == candidate || parents == [] then ""
    else if IsGenericSibling(n, candidate, parents[0].norm) then parents[0].norm
    else MatchSibling(n, candidate, parents[1..])
  }

  method MatchQuantifiedSiblingParent(n: Naming, candidate: string, parents: seq<Parent>) returns (norm: string)
    ensures norm == MatchSibling(n, candidate, parents)
  {
    var family := n.family(candidate);
    if family == "" || family == candidate {
      return "";
    }
    assert parents[0..] == parents;
    for i := 0 to |parents|
      invariant MatchSibling(n, candidate, parents) == MatchSibling(n, candidate, parents[i..])
    {
      assert parents[i..][1..] == parents[i + 1..];
      var p := parents[i].norm;
      if p != "" && p != candidate && n.family(p) == family && IsGenericQuantifiedParent(n, p) {
        return p;
      }
    }
    return "";
  }

  // ----- Rule 4: word overlap -----

  function Jaccard(a: set<string>, b: set<string>): real {
    var union := |a| + |b| - |a * b|;
    if a == {} || b == {} || union == 0 then 0.0 else |a * b| as real / union as real
  }

  predicate PrefixRelated(n: Naming, candidate: string, e: string) {
    n.normalize(e) <= n.normalize(candidate) || n.normalize(candidate) <= n.normalize(e)
  }

  function WordIndex(n: Naming, existing: seq<string>): seq<string> {
    if existing == [] then []
    else
      var (front, last) := (existing[..|existing| - 1], existing[|existing| - 1]);
      WordIndex(n, front) + (if |n.words(last)| < 2 then [] else [last])
  }

  function Score(n: Naming, candidate: string, e: string): real {
    if PrefixRelated(n, candidate, e) then 0.0 else Jaccard(n.words(candidate), n.words(e))
  }

  /** The first name with the highest score above zero, and that score. */
  function Best(n: Naming, candidate: string, index: seq<string>): (string, real) {
    if index == [] then ("", 0.0)
    else
      var (best, score) := Best(n, candidate, index[..|index| - 1]);
      var e := index[|index| - 1];
      if Score(n, candidate, e) > score then (e, Score(n, candidate, e)) else (best, score)
  }

  method BuildExistingWordsIndex(n: Naming, existing: seq<string>) returns (index: seq<string>)
    ensures index == WordIndex(n, existing)
  {
    index := [];
    for i := 0 to |existing|
      invariant index == WordIndex(n, existing[..i])
    {
      assert existing[..i + 1][..i] == existing[..i];
      if |n.words(existing[i])| >= 2 {
        index := index + [existing[i]];
      }
    }
    assert existing[..|existing|] == existing;
  }

  method FindBestWordOverlap(n: Naming, candidate: string, index: seq<string>) returns (best: string, score: real)
    ensures (best, score) == Best(n, candidate, index)
  {
    best, score := "", 0.0;
    for i := 0 to |index|
      invariant (best, score) == Best(n, candidate, index[..i]) && score >= 0.0
    {
      assert index[..i + 1][..i] == index[..i];
      if !PrefixRelated(n, candidate, index[i]) {
        var s := Jaccard(n.words(candidate), n.words(index[i]));
        if s > score {
          best, score := index[i], s;
        }
      }
    }
    assert index[..|index|] == index;
  }

  // ----- The rewriting passes -----

  datatype Rule = Superset | QuantifiedSibling | WordOverlap

  function KindOf(rule: Rule): EventKind {
    match rule
    case Superset => RewriteToUpdate
    case QuantifiedSibling => RewriteQuantifiedSiblingToUpdate
    case WordOverlap => RewriteWordOverlapToUpdate
  }

  /** The existing skill that a candidate should update instead, by this rule. */
  function TargetOf(n: Naming, rule: Rule, existing: seq<string>, c: SkillSpec): Option<Parent> {
    match rule
    case Superset => Named(n, existing, MatchSuperset(n.normalize(c.name), SortDesc(Index(n, existing))))
    case QuantifiedSibling => Named(n, existing, MatchSibling(n, n.normalize(c.name), SortDesc(Index(n, existing))))
    case WordOverlap =>
      if |n.words(c.name)| < 2 then None
      else
        var (best, score) := Best(n, c.name, WordIndex(n, existing));
        if score < 0.5 || |n.words(c.name) * n.words(best)| < 2 then None
        else Some(Parent(n.normalize(best), best))
  }

  function Named(n: Naming, existing: seq<string>, norm: string): Option<Parent> {
    if norm == "" || norm !in ByNorm(n, existing) then None else Some(Parent(norm, ByNorm(n, existing)[norm]))
  }

  /** What one pass knows beside the candidates: `claimed` are the targets updated before it began. */
  datatype Context = Context(n: Naming, rule: Rule, existing: seq<string>, doomed: set<string>, claimed: set<string>)

  datatype Fate = Keep | Drop(kind: EventKind, target: string) | Rewrite(into: Parent)

  function FateOf(c: Context, rewritten: set<string>, s: SkillSpec): Fate {
    var target := TargetOf(c.n, c.rule, c.existing, s);
    if target.None? || target.value.norm in c.doomed then Keep
    else if target.value.norm in rewritten then Drop(DropIntraBatchDuplicate, target.value.name)
    else if target.value.norm in c.claimed then Drop(DropConflictsWithExistingUpdate, target.value.name)
    else Rewrite(target.value)
  }

  datatype Outcome = Outcome(kept: seq<Option<SkillSpec>>, added: seq<Option<SkillUpdate>>, events: seq<Event>)

  function UpdateOf(s: SkillSpec, target: Parent): Option<SkillUpdate> {
    Some(SkillUpdate(target.name, Some(s.(name := target.name))))
  }

  function RewriteFrom(c: Context, rewritten: set<string>, skills: seq<Option<SkillSpec>>): Outcome
    decreases |skills|
  {
    if skills == [] then Outcome([], [], [])
    else if skills[0].None? then RewriteFrom(c, rewritten, skills[1..])
    else
      var s := skills[0].value;
      match FateOf(c, rewritten, s)
      case Keep =>
        var o := RewriteFrom(c, rewritten, skills[1..]);
        o.(kept := [skills[0]] + o.kept)
      case Drop(kind, target) =>
        var o := RewriteFrom(c, rewritten, skills[1..]);
        o.(events := [Event(kind, s.name, target)] + o.events)
      case Rewrite(target) =>
        var o := RewriteFrom(c, rewritten + {target.norm}, skills[1..]);
        o.(added := [UpdateOf(s, target)] + o.added, events := [Event(KindOf(c.rule), s.name, target.name)] + o.events)
  }

  function Claimed(n: Naming, updates: seq<Option<SkillUpdate>>): set<string> {
    set i | 0 <= i < |updates| && updates[i].Some? :: n.normalize(updates[i].value.name)
  }

  function Doomed(n: Naming, deletions: seq<string>): set<string> {
    set i | 0 <= i < |deletions| :: n.normalize(deletions[i])
  }

  function ContextOf(n: Naming, rule: Rule, d: Decision, existing: seq<string>): Context {
    Context(n, rule, existing, Doomed(n, d.deletions), Claimed(n, d.updates))
  }

  predicate Skips(n: Naming, rule: Rule, d: Decision, existing: seq<string>) {
    d.skills == [] || existing == [] || (rule.WordOverlap? && WordIndex(n, existing) == [])
  }

  function Pass(n: Naming, rule: Rule, d: Decision, existing: seq<string>): (Decision, seq<Event>) {
    if Skips(n, rule, d, existing) then (d, [])
    else
      var o := RewriteFrom(ContextOf(n, rule, d, existing), {}, d.skills);
      (d.(skills := o.kept, updates := d.updates + o.added), o.events)
  }

  /** Finds the target of one candidate with the index that the pass has built. */
  method FindTarget(n: Naming, rule: Rule, ghost existing: seq<string>, parents: seq<Parent>,
                    byNorm: map<string, string>, index: seq<string>, s: SkillSpec) returns (target: Option<Parent>)
    requires !rule.WordOverlap? ==> parents == SortDesc(Index(n, existing)) && byNorm == ByNorm(n, existing)
    requires rule.WordOverlap? ==> index == WordIndex(n, existing)
    ensures target == TargetOf(n, rule, existing, s)
  {
    if rule.WordOverlap? {
      if |n.words(s.name)| < 2 {
        return None;
      }
      var best, score := FindBestWordOverlap(n, s.name, index);
      if score < 0.5 || |n.words(s.name) * n.words(best)| < 2 {
        return None;
      }
      return Some(Parent(n.normalize(best), best));
    }
    var norm;
    if rule.Superset? {
      norm := MatchSupersetParent(n.normalize(s.name), parents);
    } else {
      norm := MatchQuantifiedSiblingParent(n, n.normalize(s.name), parents);
    }
    return if norm == "" || norm !in byNorm then None else Some(Parent(norm, byNorm[norm]));
  }

  /** rewriteSupersetSkills, rewriteQuantifiedSiblingSkills and rewriteWordOverlapSkills. */
  method RewriteSkills(n: Naming, rule: Rule, d: Decision, existing: seq<string>)
    returns (out: Decision, events: seq<Event>)
    ensures (out, events) == Pass(n, rule, d, existing)
  {
    if d.skills == [] || existing == [] {
      return d, [];
    }
    var parents, byNorm, index: seq<string> := [], map[], [];
    if rule.WordOverlap? {
      index := BuildExistingWordsIndex(n, existing);
      if index == [] {
        return d, [];
      }
    } else {
      parents, byNorm := BuildIndex(n, existing);
    }
    var claimed, doomed := Claimed(n, d.updates), Doomed(n, d.deletions);
    ghost var c := Context(n, rule, existing, doomed, claimed);
    var kept: seq<Option<SkillSpec>>, added: seq<Option<SkillUpdate>>, rewritten: set<string> := [], [], {};
    events := [];
    assert d.skills[0..] == d.skills;
    ghost var whole := RewriteFrom(c, {}, d.skills);
    assert Joined(Outcome(kept, added, events), whole) == whole;
    for i := 0 to |d.skills|
      invariant Joined(Outcome(kept, added, events), RewriteFrom(c, rewritten, d.skills[i..])) == whole
    {
      assert d.skills[i..][1..] == d.skills[i + 1..];
      ghost var so, was := Outcome(kept, added, events), rewritten;
      if d.skills[i].Some? {
        var s := d.skills[i].value;
        var target := FindTarget(n, rule, existing, parents, byNorm, index, s);
        if target.None? || target.value.norm in doomed {
          kept := kept + [d.skills[i]];
        } else if target.value.norm in rewritten {
          events := events + [Event(DropIntraBatchDuplicate, s.name, target.value.name)];
        } else if target.value.norm in claimed {
          events := events + [Event(DropConflictsWithExistingUpdate, s.name, target.value.name)];
        } else {
          added := added + [UpdateOf(s, target.value)];
          events := events + [Event(KindOf(rule), s.name, target.value.name)];
          rewritten := rewritten + {target.value.norm};
        }
      }
      TurnJoins(c, was, d.skills[i..], so);
      assert (Outcome(kept, added, events), rewritten) == Turn(c, was, d.skills[i], so);
    }
    assert Joined(Outcome(kept, added, events), Outcome([], [], [])) == Outcome(kept, added, events);
    out := d.(skills := kept, updates := d.updates + added);
  }

  function Joined(a: Outcome, b: Outcome): Outcome {
    Outcome(a.kept + b.kept, a.added + b.added, a.events + b.events)
  }

  /** What one turn of the loop adds to what is done, and to the targets rewritten so far. */
  function Turn(c: Context, rewritten: set<string>, candidate: Option<SkillSpec>, done: Outcome)
    : (Outcome, set<string>)
  {
    if candidate.None? then (done, rewritten)
    else
      var s := candidate.value;
      match FateOf(c, rewritten, s)
      case Keep => (done.(kept := done.kept + [candidate]), rewritten)
      case Drop(kind, name) => (done.(events := done.events + [Event(kind, s.name, name)]), rewritten)
      case Rewrite(into) =>
        (done.(added := done.added + [UpdateOf(s, into)],
               events := done.events + [Event(KindOf(c.rule), s.name, into.name)]),
         rewritten + {into.norm})
  }

  /** A turn moves the first candidate's share from what is to come to what is done. */
  lemma TurnJoins(c: Context, rewritten: set<string>, skills: seq<Option<SkillSpec>>, done: Outcome)
    requires skills != []
    ensures var (done', rewritten') := Turn(c, rewritten, skills[0], done);
      Joined(done', RewriteFrom(c, rewritten', skills[1..])) == Joined(done, RewriteFrom(c, rewritten, skills))
  {
  }

  // ----- The whole reconciliation -----

  function Reconciled(n: Naming, d: Decision, existing: seq<string>): (Decision, seq<Event>) {
    var (skills, e0) := DedupCandidates(n, d.skills);
    var (d1, e1) := Pass(n, Superset, d.(skills := skills), existing);
    var (d2, e2) := Pass(n, QuantifiedSibling, d1, existing);
    var (d3, e3) := Pass(n, WordOverlap, d2, existing);
    (d3, e0 + e1 + e2 + e3)
  }

  method ReconcileWithLibrary(n: Naming, decision: Option<Decision>, existing: seq<string>)
    returns (out: Option<Decision>, events: seq<Event>)
    ensures decision.None? ==> out == None && events == []
    ensures decision.Some? ==> out.Some? && (out.value, events) == Reconciled(n, decision.value, existing)
  {
    if decision.None? {
      return None, [];
    }
    var skills, e0 := DedupCandidateSkills(n, decision.value.skills);
    var d1, e1 := RewriteSkills(n, Superset, decision.value.(skills := skills), existing);
    var d2, e2 := RewriteSkills(n, QuantifiedSibling, d1, existing);
    var d3, e3 := RewriteSkills(n, WordOverlap, d2, existing);
    return Some(d3), e0 + e1 + e2 + e3;
  }
}
