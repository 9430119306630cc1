/** The feedback learner of reinforcement_learning.py: a recruiter's decision becomes a
    scalar reward, the reward nudges four weight tables (skill, company, location, sector),
    and the tables re-score catalogue entries for the "improved recommendations" path. */
module FeedbackLearner {
  import opened Text
  import opened Records
  import opened Ranking

  const LearningRate: real := 0.1
  /** Kept by the learner but read by no update rule. */
  const DiscountFactor: real := 0.9
  /** Kept by the learner but read by no update rule. */
  const ExplorationRate: real := 0.1

  // ---------------------------------------------------------------- reward

  /** `_calculate_reward`: an acceptance earns score/10, anything else loses half of
      (10 - score)/10. */
  function Reward(decision: string, feedbackScore: int): (r: real)
    ensures decision == "accepted" && 0 <= feedbackScore <= 10 ==> 0.0 <= r <= 1.0
    ensures decision != "accepted" && 0 <= feedbackScore <= 10 ==> -0.5 <= r <= 0.0
    ensures decision == "accepted" ==> (r > 0.0 <==> feedbackScore > 0)
    ensures decision != "accepted" ==> (r < 0.0 <==> feedbackScore < 10)
  {
    if decision == "accepted" then 1.0 * (feedbackScore as real / 10.0)
    else -0.5 * ((10 - feedbackScore) as real / 10.0)
  }

  /** A better score never earns a smaller reward, whatever the decision. */
  lemma RewardMonotone(decision: string, a: int, b: int)
    requires a <= b
    ensures Reward(decision, a) <= Reward(decision, b)
  {
  }

  // ---------------------------------------------------------------- skill lists

  /** The distinct elements of a list: Python's `set(xs)`. */
  function ElemSet(xs: seq<string>): set<string> {
    set x | x in xs
  }

  lemma {:induction false} ElemSetSize(xs: seq<string>)
    ensures |ElemSet(xs)| <= |xs|
    ensures xs != [] ==> |ElemSet(xs)| >= 1
  {
    if xs != [] {
      var init := xs[..|xs| - 1];
      ElemSetSize(init);
      assert xs == init + [xs[|xs| - 1]];
      assert ElemSet(xs) == ElemSet(init) + {xs[|xs| - 1]};
      assert xs[0] in ElemSet(xs);
    }
  }

  function StripLowerAll(xs: seq<string>): (r: seq<string>)
    ensures |r| == |xs|
    ensures forall i :: 0 <= i < |xs| ==> r[i] == Lower(Strip(xs[i]))
  {
    seq(|xs|, i requires 0 <= i < |xs| => Lower(Strip(xs[i])))
  }

  /** `[s.strip().lower() for s in text.split(',')]`. */
  function SkillList(text: string): (r: seq<string>)
    ensures |r| >= 1
  {
    StripLowerAll(Split(text, ","))
  }

  /** `_calculate_original_score`: the share of the distinct required skills (split on
      ", " after lower-casing) that the candidate lists. */
  function OriginalScore(candidateSkills: string, requiredSkills: string): (r: real)
    ensures 0.0 <= r <= 1.0
    ensures |ElemSet(Split(Lower(requiredSkills), ", "))| >= 1
    ensures r == |ElemSet(Split(Lower(candidateSkills), ", ")) * ElemSet(Split(Lower(requiredSkills), ", "))| as real
                 / |ElemSet(Split(Lower(requiredSkills), ", "))| as real
  {
    var cand := Split(Lower(candidateSkills), ", ");
    var req := Split(Lower(requiredSkills), ", ");
    Overlap(cand, req)
  }

  /** The share of the distinct required pieces that the candidate lists, with the source's
      two `0.5` guards for an empty list and an empty set. */
  function Overlap(cand: seq<string>, req: seq<string>): (r: real)
    ensures 0.0 <= r <= 1.0
    ensures |req| >= 1 ==> |ElemSet(req)| >= 1
    ensures |cand| >= 1 && |req| >= 1 ==> r == |ElemSet(cand) * ElemSet(req)| as real / |ElemSet(req)| as real
  {
    ElemSetSize(req);
    if |req| == 0 || |cand| == 0 then 0.5
    else
      var total := |ElemSet(req)|;
      if total == 0 then 0.5
      else
        var shared := ElemSet(cand) * ElemSet(req);
        SubsetCard(shared, ElemSet(req));
        Share(|shared|, total)
  }

  /** `part / whole` as a fraction of a non-empty whole. */
  function Share(part: nat, whole: nat): (r: real)
    requires 0 < whole && part <= whole
    ensures 0.0 <= r <= 1.0
    ensures r == 1.0 <==> part == whole
    ensures r == 0.0 <==> part == 0
    ensures r * whole as real == part as real
  {
    DivTimes(part as real, whole as real);
    part as real / whole as real
  }

  lemma DivTimes(x: real, n: real)
    requires n != 0.0
    ensures x / n * n == x
  {
  }

  lemma DivMonotone(x: real, y: real, n: real)
    requires x <= y && n > 0.0
    ensures x / n <= y / n
  {
  }

  /** A subset as large as its superset is the whole of it. */
  lemma SubsetSameCard(a: set<string>, b: set<string>)
    requires a <= b && |a| == |b|
    ensures a == b
  {
    assert b == a + (b - a);
    assert |b - a| == 0;
  }

  lemma SubsetCard(a: set<string>, b: set<string>)
    requires a <= b
    ensures |a| <= |b|
  {
    assert b == a + (b - a);
  }

  /** The two "return 0.5" guards of the original score are dead: splitting always yields
      at least one piece, so an empty requirement counts as the single skill "". */
  lemma OriginalScoreOfEmptyRequirement(candidateSkills: string)
    ensures OriginalScore(candidateSkills, "") ==
      (if "" in Split(Lower(candidateSkills), ", ") then 1.0 else 0.0)
  {
    var cand := Split(Lower(candidateSkills), ", ");
    assert Lower("") == "";
    var req := Split("", ", ");
    assert req == [""];
    assert ElemSet(req) == {""};
    if "" in cand {
      assert ElemSet(cand) * ElemSet(req) == {""};
    } else {
      assert ElemSet(cand) * ElemSet(req) == {};
    }
  }

  /** `_calculate_skill_alignment`: distinct shared skills over the length of the
      required-skill list (not its distinct count). */
  function SkillAlignment(candidateSkills: string, requiredSkills: string): (r: real)
    ensures 0.0 <= r <= 1.0
  {
    Alignment(SkillList(candidateSkills), SkillList(requiredSkills))
  }

  /** The alignment is the number of distinct required pieces the candidate holds, over the
      length of the required list. */
  lemma SkillAlignmentValue(candidateSkills: string, requiredSkills: string)
    ensures SkillAlignment(candidateSkills, requiredSkills)
         == |ElemSet(SkillList(candidateSkills)) * ElemSet(SkillList(requiredSkills))| as real
            / |SkillList(requiredSkills)| as real
  {
    var cand := SkillList(candidateSkills);
    var req := SkillList(requiredSkills);
    assert |req| >= 1;
    assert SkillAlignment(candidateSkills, requiredSkills) == Alignment(cand, req);
  }

  /** The alignment of two cleaned skill lists; `0.5` for an empty requirement. */
  function Alignment(cand: seq<string>, req: seq<string>): (r: real)
    ensures 0.0 <= r <= 1.0
    ensures |req| >= 1 ==> r == |ElemSet(cand) * ElemSet(req)| as real / |req| as real
  {
    if |req| == 0 then 0.5
    else
      var shared := ElemSet(cand) * ElemSet(req);
      ElemSetSize(req);
      SubsetCard(shared, ElemSet(req));
      Share(|shared|, |req|)
  }

  /** The original score is 1 exactly when the candidate lists every distinct required
      skill, and 0 exactly when the candidate lists none of them. */
  lemma OriginalScoreExtremes(candidateSkills: string, requiredSkills: string)
    ensures var cand := ElemSet(Split(Lower(candidateSkills), ", "));
      var req := ElemSet(Split(Lower(requiredSkills), ", "));
      && (OriginalScore(candidateSkills, requiredSkills) == 1.0 <==> req <= cand)
      && (OriginalScore(candidateSkills, requiredSkills) == 0.0 <==> cand * req == {})
  {
    var cand := ElemSet(Split(Lower(candidateSkills), ", "));
    var req := ElemSet(Split(Lower(requiredSkills), ", "));
    var r := OriginalScore(candidateSkills, requiredSkills);
    SubsetCard(cand * req, req);
    if r == 1.0 {
      SubsetSameCard(cand * req, req);
    }
    if req <= cand {
      assert cand * req == req;
    }
  }

  /** The alignment is 1 exactly when every required piece is held and no required piece
      repeats; it is 0 exactly when no required piece is held. */
  lemma SkillAlignmentExtremes(candidateSkills: string, requiredSkills: string)
    ensures var cand := SkillList(candidateSkills); var req := SkillList(requiredSkills);
      && (SkillAlignment(candidateSkills, requiredSkills) == 1.0 <==>
            ElemSet(req) <= ElemSet(cand) && |ElemSet(req)| == |req|)
      && (SkillAlignment(candidateSkills, requiredSkills) == 0.0 <==>
            forall p :: p in req ==> p !in cand)
  {
    AlignmentExtremes(SkillList(candidateSkills), SkillList(requiredSkills));
  }

  lemma AlignmentExtremes(cand: seq<string>, req: seq<string>)
    requires |req| >= 1
    ensures Alignment(cand, req) == 1.0 <==> ElemSet(req) <= ElemSet(cand) && |ElemSet(req)| == |req|
    ensures Alignment(cand, req) == 0.0 <==> forall p :: p in req ==> p !in cand
  {
    var shared := ElemSet(cand) * ElemSet(req);
    var r := Alignment(cand, req);
    ElemSetSize(req);
    SubsetCard(shared, ElemSet(req));
    assert r * |req| as real == |shared| as real;
    if r == 1.0 {
      SubsetSameCard(shared, ElemSet(req));
    }
    if ElemSet(req) <= ElemSet(cand) {
      assert shared == ElemSet(req);
    }
    if r == 0.0 {
      assert shared == {};
      forall p | p in req
        ensures p !in cand
      {
        assert p in ElemSet(req);
        assert p in cand ==> p in shared;
      }
    }
    if forall p :: p in req ==> p !in cand {
      assert shared == {};
    }
  }

  /** Listing more skills never lowers the alignment. */
  lemma SkillAlignmentMonotone(candidateSkills: string, moreSkills: string, requiredSkills: string)
    requires ElemSet(SkillList(candidateSkills)) <= ElemSet(SkillList(moreSkills))
    ensures SkillAlignment(candidateSkills, requiredSkills) <= SkillAlignment(moreSkills, requiredSkills)
  {
    AlignmentMonotone(SkillList(candidateSkills), SkillList(moreSkills), SkillList(requiredSkills));
  }

  lemma AlignmentMonotone(cand: seq<string>, more: seq<string>, req: seq<string>)
    requires |req| >= 1 && ElemSet(cand) <= ElemSet(more)
    ensures Alignment(cand, req) <= Alignment(more, req)
  {
    var n := |req| as real;
    SubsetCard(ElemSet(cand) * ElemSet(req), ElemSet(more) * ElemSet(req));
    DivMonotone(|ElemSet(cand) * ElemSet(req)| as real, |ElemSet(more) * ElemSet(req)| as real, n);
  }

  // ---------------------------------------------------------------- recommended actions

  function GapActions(skill: string): (r: seq<string>)
    ensures |r| == 3
  {
    ["Take online course or certification in " + skill,
     "Practice " + skill + " through projects",
     "Join " + skill + " community or forum"]
  }

  function AreaActions(area: string): (r: seq<string>)
    ensures |r| == 3
  {
    ["Focus on improving " + area,
     "Seek mentorship in " + area,
     "Get hands-on experience with " + area]
  }

  /** The three-action templates of each item, concatenated in item order. */
  function Expand(items: seq<string>, f: string -> seq<string>): seq<string> {
    if items == [] then [] else Expand(items[..|items| - 1], f) + f(items[|items| - 1])
  }

  lemma {:induction false} ExpandAt(items: seq<string>, f: string -> seq<string>, i: nat, j: nat)
    requires forall x :: |f(x)| == 3
    requires i < |items| && j < 3
    ensures |Expand(items, f)| == 3 * |items|
    ensures Expand(items, f)[3 * i + j] == f(items[i])[j]
  {
    var init := items[..|items| - 1];
    if i < |init| {
      ExpandAt(init, f, i, j);
      assert init[i] == items[i];
    } else if init != [] {
      ExpandAt(init, f, 0, 0);
    }
  }

  lemma {:induction false} ExpandLength(items: seq<string>, f: string -> seq<string>)
    requires forall x :: |f(x)| == 3
    ensures |Expand(items, f)| == 3 * |items|
  {
    if items != [] {
      ExpandAt(items, f, 0, 0);
    }
  }

  /** `_generate_recommended_actions`: three actions per skill gap, then three per area for
      improvement, cut to the first ten. */
  method RecommendedActions(skillGaps: seq<string>, areas: seq<string>) returns (actions: seq<string>)
    ensures actions == PyPrefix(Expand(skillGaps, GapActions) + Expand(areas, AreaActions), 10)
    ensures |actions| == Min(10, 3 * (|skillGaps| + |areas|))
    ensures forall i :: 0 <= i < |skillGaps| && 3 * i < 10 ==>
      actions[3 * i] == "Take online course or certification in " + skillGaps[i]
  {
    var all: seq<string> := [];
    var i := 0;
    while i < |skillGaps|
      invariant 0 <= i <= |skillGaps|
      invariant all == Expand(skillGaps[..i], GapActions)
    {
      var skill := skillGaps[i];
      all := all + ["Take online course or certification in " + skill];
      all := all + ["Practice " + skill + " through projects"];
      all := all + ["Join " + skill + " community or forum"];
      assert skillGaps[..i + 1][..i] == skillGaps[..i];
      i := i + 1;
    }
    assert skillGaps[..i] == skillGaps;
    var j := 0;
    while j < |areas|
      invariant 0 <= j <= |areas|
      invariant all == Expand(skillGaps, GapActions) + Expand(areas[..j], AreaActions)
    {
      var area := areas[j];
      all := all + ["Focus on improving " + area];
      all := all + ["Seek mentorship in " + area];
      all := all + ["Get hands-on experience with " + area];
      assert areas[..j + 1][..j] == areas[..j];
      j := j + 1;
    }
    assert areas[..j] == areas;
    ExpandLength(skillGaps, GapActions);
    ExpandLength(areas, AreaActions);
    actions := all[..Min(10, |all|)];
    forall i | 0 <= i < |skillGaps| && 3 * i < 10
      ensures actions[3 * i] == "Take online course or certification in " + skillGaps[i]
    {
      ExpandAt(skillGaps, GapActions, i, 0);
    }
  }

  // ---------------------------------------------------------------- skill prioritisation

  datatype SkillPriority = SkillPriority(skill: string, priority: string, frequency: nat, category: string)

  /** The distinct elements in order of first occurrence (the key order of a `Counter`). */
  function Distinct(xs: seq<string>): (r: seq<string>)
    ensures forall x :: x in r <==> x in xs
    ensures NoDup(r)
  {
    if xs == [] then []
    else
      var d := Distinct(xs[..|xs| - 1]);
      assert xs == xs[..|xs| - 1] + [xs[|xs| - 1]];
      if xs[|xs| - 1] in d then d else d + [xs[|xs| - 1]]
  }

  function SkillsOf(p: seq<SkillPriority>): (r: seq<string>)
    ensures |r| == |p|
    ensures forall k :: 0 <= k < |p| ==> r[k] == p[k].skill
  {
    seq(|p|, k requires 0 <= k < |p| => p[k].skill)
  }

  /** The entry `_prioritize_skills` builds for one skill, given the mention counts. */
  function Entry(skill: string, counts: multiset<string>, skillGaps: seq<string>): (e: SkillPriority)
    ensures e.skill == skill && e.frequency == counts[skill]
    ensures e.priority == "high" <==> counts[skill] > 1
    ensures e.priority == "high" || e.priority == "medium"
    ensures e.category == "gap" <==> skill in skillGaps
    ensures e.category == "gap" || e.category == "improvement"
  {
    SkillPriority(skill, if counts[skill] > 1 then "high" else "medium", counts[skill],
                  if skill in skillGaps then "gap" else "improvement")
  }

  /** How often a skill is named: the key `Counter.most_common` sorts on. */
  function FrequencyKey(counts: multiset<string>): string -> real {
    (x: string) => counts[x] as real
  }

  /** `_prioritize_skills`: one entry per distinct skill of gaps then areas, most frequent
      first, skills named equally often in the order they are first named; "high" priority
      exactly for skills named more than once; category "gap" exactly for skills among the
      gaps. */
  method PrioritizeSkills(skillGaps: seq<string>, areas: seq<string>) returns (prioritized: seq<SkillPriority>)
    ensures forall x :: x in skillGaps + areas <==> x in SkillsOf(prioritized)
    ensures NoDup(SkillsOf(prioritized))
    ensures forall k :: 0 <= k < |prioritized| ==>
      prioritized[k] == Entry(prioritized[k].skill, multiset(skillGaps + areas), skillGaps)
    ensures forall k, l :: 0 <= k < l < |prioritized| ==> prioritized[k].frequency >= prioritized[l].frequency
    ensures forall v :: WithKey(SkillsOf(prioritized), FrequencyKey(multiset(skillGaps + areas)), v)
                        == WithKey(Distinct(skillGaps + areas), FrequencyKey(multiset(skillGaps + areas)), v)
  {
    var all := skillGaps + areas;
    var counts := multiset(all);
    var key := FrequencyKey(counts);
    var distinct := Distinct(all);
    var ranked := SortDesc(distinct, key);
    prioritized := [];
    for k := 0 to |ranked|
      invariant |prioritized| == k
      invariant forall m :: 0 <= m < k ==> prioritized[m] == Entry(ranked[m], counts, skillGaps)
    {
      prioritized := prioritized + [Entry(ranked[k], counts, skillGaps)];
    }
    assert SkillsOf(prioritized) == ranked;
    SortDescSameElements(distinct, key);
    SortDescNoDup(distinct, key);
    forall k, l | 0 <= k < l < |prioritized|
      ensures prioritized[k].frequency >= prioritized[l].frequency
    {
      assert key(ranked[k]) >= key(ranked[l]);
    }
    forall v {
      SortDescStable(distinct, key, v);
    }
  }

  // ---------------------------------------------------------------- weight tables

  /** The four learned tables, keyed by lower-cased names. */
  datatype Weights = Weights(
    skill: map<string, real>,
    company: map<string, real>,
    location: map<string, real>,
    sector: map<string, real>)

  const EmptyWeights := Weights(map[], map[], map[], map[])

  /** What an update adds to: the stored weight, or 0 for an unseen key. */
  function Stored(m: map<string, real>, k: string): real {
    if k in m then m[k] else 0.0
  }

  /** `m[k] += delta`, where an unseen key is created as `delta`. */
  function Bump(m: map<string, real>, k: string, delta: real): map<string, real> {
    m[k := Stored(m, k) + delta]
  }

  /** Bump every key of `keys` in list order (a key listed twice is bumped twice). */
  function BumpAll(m: map<string, real>, keys: seq<string>, delta: real): map<string, real> {
    if keys == [] then m
    else Bump(BumpAll(m, keys[..|keys| - 1], delta), keys[|keys| - 1], delta)
  }

  /** Bump `k` unless it is the empty name. */
  function BumpNamed(m: map<string, real>, k: string, delta: real): map<string, real> {
    if k != "" then Bump(m, k, delta) else m
  }

  function LowerAll(xs: seq<string>): (r: seq<string>)
    ensures |r| == |xs|
    ensures forall i :: 0 <= i < |xs| ==> r[i] == Lower(xs[i])
  {
    seq(|xs|, i requires 0 <= i < |xs| => Lower(xs[i]))
  }

  lemma BumpAllSnoc(m: map<string, real>, keys: seq<string>, k: string, delta: real)
    ensures BumpAll(m, keys + [k], delta) == Bump(BumpAll(m, keys, delta), k, delta)
  {
    assert (keys + [k])[..|keys|] == keys;
  }

  lemma LowerAllSnoc(xs: seq<string>, x: string)
    ensures LowerAll(xs + [x]) == LowerAll(xs) + [Lower(x)]
  {
    assert forall i :: 0 <= i < |xs| ==> (xs + [x])[i] == xs[i];
  }

  /** The state `_update_model` leaves: each lower-cased gap skill gains lr*reward, each
      lower-cased strength half that, and the internship's lower-cased company, location and
      sector gain lr*reward when non-empty. */
  function UpdatedWeights(w: Weights, details: Internship, reward: real,
                          skillGaps: seq<string>, strengths: seq<string>): Weights
  {
    var gapStep := LearningRate * reward;
    Weights(
      BumpAll(BumpAll(w.skill, LowerAll(skillGaps), gapStep), LowerAll(strengths), gapStep * 0.5),
      BumpNamed(w.company, Lower(details.company), gapStep),
      BumpNamed(w.location, Lower(details.location), gapStep),
      BumpNamed(w.sector, Lower(details.sector), gapStep))
  }

  /** A run of bumps adds exactly the keys bumped to the key set. */
  lemma {:induction false} BumpAllKeys(m: map<string, real>, keys: seq<string>, delta: real, k: string)
    ensures k in BumpAll(m, keys, delta) <==> k in m || k in keys
    decreases |keys|
  {
    if keys != [] {
      var init := keys[..|keys| - 1];
      BumpAllKeys(m, init, delta, k);
      assert keys == init + [keys[|keys| - 1]];
    }
  }

  /** `delta` added `n` times. */
  function Times(delta: real, n: nat): (r: real)
    ensures r == delta * (n as real)
  {
    if n == 0 then 0.0 else Times(delta, n - 1) + delta
  }

  /** Adding a positive amount at least once gives a positive total, a negative amount a
      negative one. */
  lemma {:induction false} TimesSign(delta: real, n: nat)
    ensures delta >= 0.0 ==> Times(delta, n) >= 0.0
    ensures delta > 0.0 && n >= 1 ==> Times(delta, n) > 0.0
    ensures delta < 0.0 && n >= 1 ==> Times(delta, n) < 0.0
  {
    if n > 0 {
      TimesSign(delta, n - 1);
    }
  }

  /** Closed form of a run of bumps: each key gains `delta` once per occurrence. */
  lemma {:induction false} BumpAllAt(m: map<string, real>, keys: seq<string>, delta: real, k: string)
    ensures Stored(BumpAll(m, keys, delta), k) == Stored(m, k) + Times(delta, multiset(keys)[k])
    decreases |keys|
  {
    if keys != [] {
      var init := keys[..|keys| - 1];
      var last := keys[|keys| - 1];
      BumpAllAt(m, init, delta, k);
      assert keys == init + [last];
      if k == last {
        assert multiset(keys)[k] == multiset(init)[k] + 1;
      } else {
        assert multiset(keys)[k] == multiset(init)[k];
      }
    }
  }

  /** Every skill's new weight is its old one (0 if unseen) plus lr*reward per mention as a
      gap and half that per mention as a strength; nothing else in the skill table moves. */
  lemma SkillWeightAfterUpdate(w: Weights, details: Internship, reward: real,
                               skillGaps: seq<string>, strengths: seq<string>, k: string)
    ensures var s := UpdatedWeights(w, details, reward, skillGaps, strengths).skill;
      && (k in s <==> k in w.skill || k in LowerAll(skillGaps) || k in LowerAll(strengths))
      && Stored(s, k) == Stored(w.skill, k)
           + Times(LearningRate * reward, multiset(LowerAll(skillGaps))[k])
           + Times(LearningRate * reward * 0.5, multiset(LowerAll(strengths))[k])
  {
    var step := LearningRate * reward;
    var mid := BumpAll(w.skill, LowerAll(skillGaps), step);
    BumpAllKeys(w.skill, LowerAll(skillGaps), step, k);
    BumpAllKeys(mid, LowerAll(strengths), step * 0.5, k);
    BumpAllAt(w.skill, LowerAll(skillGaps), step, k);
    BumpAllAt(mid, LowerAll(strengths), step * 0.5, k);
  }

  /** The company, location and sector tables change at one key at most: the lower-cased
      attribute of the internship, and only when it is non-empty. */
  lemma PreferencesAfterUpdate(w: Weights, details: Internship, reward: real,
                               skillGaps: seq<string>, strengths: seq<string>, k: string)
    ensures var u := UpdatedWeights(w, details, reward, skillGaps, strengths);
      && (k != Lower(details.company) ==> (k in u.company <==> k in w.company) && Stored(u.company, k) == Stored(w.company, k))
      && (k == Lower(details.company) && k != "" ==> k in u.company && u.company[k] == Stored(w.company, k) + LearningRate * reward)
      && (Lower(details.company) == "" ==> u.company == w.company)
      && (k != Lower(details.location) ==> (k in u.location <==> k in w.location) && Stored(u.location, k) == Stored(w.location, k))
      && (k == Lower(details.location) && k != "" ==> k in u.location && u.location[k] == Stored(w.location, k) + LearningRate * reward)
      && (k != Lower(details.sector) ==> (k in u.sector <==> k in w.sector) && Stored(u.sector, k) == Stored(w.sector, k))
      && (k == Lower(details.sector) && k != "" ==> k in u.sector && u.sector[k] == Stored(w.sector, k) + LearningRate * reward)
  {
  }

  /** Feedback is additive, not idempotent: applying the same non-zero feedback twice moves
      a gap skill's weight twice as far as applying it once. */
  lemma FeedbackNotIdempotent(w: Weights, details: Internship, reward: real,
                              skillGaps: seq<string>, k: string)
    requires k in LowerAll(skillGaps)
    requires reward != 0.0
    ensures var once := UpdatedWeights(w, details, reward, skillGaps, []);
            var twice := UpdatedWeights(once, details, reward, skillGaps, []);
            Stored(twice.skill, k) - Stored(w.skill, k) == 2.0 * (Stored(once.skill, k) - Stored(w.skill, k))
            && Stored(twice.skill, k) != Stored(once.skill, k)
  {
    var once := UpdatedWeights(w, details, reward, skillGaps, []);
    SkillWeightAfterUpdate(w, details, reward, skillGaps, [], k);
    SkillWeightAfterUpdate(once, details, reward, skillGaps, [], k);
    assert multiset(LowerAll(skillGaps))[k] >= 1;
    assert multiset(LowerAll([]))[k] == 0;
    TimesSign(LearningRate * reward, multiset(LowerAll(skillGaps))[k]);
  }

  /** A positive reward strictly raises the stored weight of every skill named as a gap:
      repeated acceptances keep raising it. */
  lemma PositiveFeedbackRaisesGapWeight(w: Weights, details: Internship, reward: real,
                                        skillGaps: seq<string>, strengths: seq<string>, k: string)
    requires k in LowerAll(skillGaps)
    requires reward > 0.0
    ensures Stored(UpdatedWeights(w, details, reward, skillGaps, strengths).skill, k) > Stored(w.skill, k)
  {
    SkillWeightAfterUpdate(w, details, reward, skillGaps, strengths, k);
    assert multiset(LowerAll(skillGaps))[k] >= 1;
    TimesSign(LearningRate * reward, multiset(LowerAll(skillGaps))[k]);
    TimesSign(LearningRate * reward * 0.5, multiset(LowerAll(strengths))[k]);
  }

  // ---------------------------------------------------------------- improved score

  /** A preference as the scorer reads it: 0.5 for an unseen key. */
  function Preference(m: map<string, real>, k: string): real {
    if k in m then m[k] else 0.5
  }

  /** One required skill's contribution: its learned weight (1.0 if unseen) when the
      candidate has it, otherwise 0.3 times its learned weight (0.5 if unseen). */
  function SkillTerm(weights: map<string, real>, candidate: seq<string>, skill: string): real {
    if skill in candidate then (if skill in weights then weights[skill] else 1.0)
    else (if skill in weights then weights[skill] else 0.5) * 0.3
  }

  function SkillSum(weights: map<string, real>, candidate: seq<string>, required: seq<string>): real {
    if required == [] then 0.0
    else SkillSum(weights, candidate, required[..|required| - 1]) + SkillTerm(weights, candidate, required[|required| - 1])
  }

  /** How many entries of `required` the candidate lists. */
  function MatchedCount(candidate: seq<string>, required: seq<string>): (m: nat)
    ensures m <= |required|
  {
    if required == [] then 0
    else MatchedCount(candidate, required[..|required| - 1]) + (if required[|required| - 1] in candidate then 1 else 0)
  }

  /** `min(max(x, 0.0), 1.0)`. */
  function Clamp01(x: real): (r: real)
    ensures 0.0 <= r <= 1.0
    ensures 0.0 <= x <= 1.0 ==> r == x
  {
    if x < 0.0 then 0.0 else if x > 1.0 then 1.0 else x
  }

  /** The unclamped blend 0.4*skill + 0.2*company + 0.2*location + 0.2*sector. */
  function Blend(w: Weights, candidateSkills: string, internship: Internship): real {
    var cand := SkillList(candidateSkills);
    var req := SkillList(internship.skills);
    var skillScore := if |req| > 0 then SkillSum(w.skill, cand, req) / (|req| as real) else 0.5;
    skillScore * 0.4
      + Preference(w.company, Lower(internship.company)) * 0.2
      + Preference(w.location, Lower(internship.location)) * 0.2
      + Preference(w.sector, Lower(internship.sector)) * 0.2
  }

  /** `_calculate_improved_score`: the blend, clamped to [0, 1]. */
  function ImprovedScore(w: Weights, candidateSkills: string, internship: Internship): (r: real)
    ensures 0.0 <= r <= 1.0
    ensures 0.0 <= Blend(w, candidateSkills, internship) <= 1.0 ==> r == Blend(w, candidateSkills, internship)
  {
    Clamp01(Blend(w, candidateSkills, internship))
  }

  lemma {:induction false} SkillSumUnlearned(candidate: seq<string>, required: seq<string>)
    ensures SkillSum(map[], candidate, required)
      == MatchedCount(candidate, required) as real + 0.15 * ((|required| - MatchedCount(candidate, required)) as real)
  {
    if required != [] {
      SkillSumUnlearned(candidate, required[..|required| - 1]);
    }
  }

  /** Before any feedback the score depends on skill overlap alone: every matched skill
      counts 1, every missing one 0.15, and the three preferences add 0.3; the result lies
      in [0.36, 0.7], so the clamp never bites. */
  lemma ColdStartScore(candidateSkills: string, internship: Internship)
    ensures var req := SkillList(internship.skills);
            var m := MatchedCount(SkillList(candidateSkills), req) as real;
            var n := |req| as real;
            && ImprovedScore(EmptyWeights, candidateSkills, internship) == 0.3 + 0.4 * ((m + 0.15 * (n - m)) / n)
            && 0.36 <= ImprovedScore(EmptyWeights, candidateSkills, internship) <= 0.7
  {
    var cand := SkillList(candidateSkills);
    var req := SkillList(internship.skills);
    var m := MatchedCount(cand, req) as real;
    var n := |req| as real;
    SkillSumUnlearned(cand, req);
    var sum := m + 0.15 * (n - m);
    assert SkillSum(EmptyWeights.skill, cand, req) == sum;
    assert 0.15 * n <= sum <= n;
    FractionBounds(sum, n);
    assert Blend(EmptyWeights, candidateSkills, internship) == sum / n * 0.4 + 0.5 * 0.2 + 0.5 * 0.2 + 0.5 * 0.2;
  }

  lemma FractionBounds(a: real, n: real)
    requires n >= 1.0 && 0.15 * n <= a <= n
    ensures 0.15 <= a / n <= 1.0
  {
    assert a / n * n == a;
  }

  /** A higher learned preference for the internship's company never lowers its score. */
  lemma ScoreMonotoneInCompany(w: Weights, candidateSkills: string, internship: Internship, v: real)
    requires v >= Preference(w.company, Lower(internship.company))
    ensures ImprovedScore(w.(company := w.company[Lower(internship.company) := v]), candidateSkills, internship)
         >= ImprovedScore(w, candidateSkills, internship)
  {
  }

  /** As written, the first positive feedback on an unseen company lowers that company's
      preference as the scorer reads it: the default 0.5 is replaced by lr*reward <= 0.1. */
  lemma FirstAcceptanceLowersCompanyPreference(w: Weights, details: Internship, reward: real,
                                               skillGaps: seq<string>, strengths: seq<string>)
    requires Lower(details.company) != "" && Lower(details.company) !in w.company
    requires 0.0 < reward <= 1.0
    ensures Preference(UpdatedWeights(w, details, reward, skillGaps, strengths).company, Lower(details.company)) <= 0.1
    ensures Preference(UpdatedWeights(w, details, reward, skillGaps, strengths).company, Lower(details.company))
          < Preference(w.company, Lower(details.company))
  {
  }

  /** Corrected preference update: an unseen key starts from the 0.5 the scorer assumes. */
  function BumpFromDefault(m: map<string, real>, k: string, delta: real): (r: map<string, real>)
    ensures k != "" ==> Preference(r, k) == Preference(m, k) + delta
    ensures forall j :: j != k ==> Preference(r, j) == Preference(m, j)
  {
    if k != "" then m[k := Preference(m, k) + delta] else m
  }

  /** Corrected update of the three preference tables (the skill table is as written). */
  function CorrectedUpdatedWeights(w: Weights, details: Internship, reward: real,
                                   skillGaps: seq<string>, strengths: seq<string>): Weights
  {
    var step := LearningRate * reward;
    UpdatedWeights(w, details, reward, skillGaps, strengths).(
      company := BumpFromDefault(w.company, Lower(details.company), step),
      location := BumpFromDefault(w.location, Lower(details.location), step),
      sector := BumpFromDefault(w.sector, Lower(details.sector), step))
  }

  /** With the corrected update, non-negative feedback never lowers the preference part of
      any internship's score, and positive feedback on a named company raises its part. */
  lemma CorrectedFeedbackNeverLowersPreferences(w: Weights, details: Internship, reward: real,
                                               skillGaps: seq<string>, strengths: seq<string>, k: string)
    requires reward >= 0.0
    ensures var u := CorrectedUpdatedWeights(w, details, reward, skillGaps, strengths);
      && Preference(u.company, k) >= Preference(w.company, k)
      && Preference(u.location, k) >= Preference(w.location, k)
      && Preference(u.sector, k) >= Preference(w.sector, k)
      && (reward > 0.0 && k == Lower(details.company) && k != "" ==> Preference(u.company, k) > Preference(w.company, k))
  {
    var step := LearningRate * reward;
    if k != Lower(details.company) {
      assert Preference(BumpFromDefault(w.company, Lower(details.company), step), k) == Preference(w.company, k);
    }
    if k != Lower(details.location) {
      assert Preference(BumpFromDefault(w.location, Lower(details.location), step), k) == Preference(w.location, k);
    }
    if k != Lower(details.sector) {
      assert Preference(BumpFromDefault(w.sector, Lower(details.sector), step), k) == Preference(w.sector, k);
    }
  }

  // ---------------------------------------------------------------- confidence and progress

  function ConfidenceRank(c: string): nat {
    if c == "high" then 2 else if c == "medium" then 1 else 0
  }

  /** `_calculate_confidence` from the skill alignment and the feedback count. */
  function Confidence(alignment: real, feedbackCount: int): (c: string)
    ensures c == "high" || c == "medium" || c == "low"
    ensures c == "high" ==> alignment > 0.8 && feedbackCount > 3
    ensures c == "medium" ==> alignment > 0.6 && feedbackCount > 1
    ensures alignment > 0.8 && feedbackCount > 3 ==> c == "high"
    ensures !(alignment > 0.8 && feedbackCount > 3) && alignment > 0.6 && feedbackCount > 1 ==> c == "medium"
  {
    if alignment > 0.8 && feedbackCount > 3 then "high"
    else if alignment > 0.6 && feedbackCount > 1 then "medium"
    else "low"
  }

  /** More alignment and more feedback never lower the confidence level. */
  lemma ConfidenceMonotone(a1: real, n1: int, a2: real, n2: int)
    requires a1 <= a2 && n1 <= n2
    ensures ConfidenceRank(Confidence(a1, n1)) <= ConfidenceRank(Confidence(a2, n2))
  {
  }

  /** The learning insights read from the persistence collaborator; an absent key is `None`
      (or the empty list of skill gaps). */
  datatype Insights = Insights(
    totalFeedbackReceived: Option<int>,
    averageFeedbackScore: Option<real>,
    commonSkillGaps: seq<string>)

  /** `_calculate_confidence` for one internship. */
  function CalculateConfidence(candidateSkills: string, internship: Internship, insights: Insights): (c: string)
    ensures c == "high" ==> insights.totalFeedbackReceived.GetOr(0) > 3
    ensures c == "high" <==>
      SkillAlignment(candidateSkills, internship.skills) > 0.8 && insights.totalFeedbackReceived.GetOr(0) > 3
    ensures c == "medium" <==>
      !(SkillAlignment(candidateSkills, internship.skills) > 0.8 && insights.totalFeedbackReceived.GetOr(0) > 3)
      && SkillAlignment(candidateSkills, internship.skills) > 0.6 && insights.totalFeedbackReceived.GetOr(0) > 1
    ensures c == "low" || c == "medium" || c == "high"
  {
    Confidence(SkillAlignment(candidateSkills, internship.skills), insights.totalFeedbackReceived.GetOr(0))
  }

  /** `x / d` for a divisor of at least one: never above `x`. */
  function Per(x: real, d: real): (r: real)
    requires x >= 0.0 && d >= 1.0
    ensures 0.0 <= r <= x
    ensures r * d == x
  {
    assert x / d * d == x;
    assert x / d <= x by {
      assert x / d * 1.0 <= x / d * d;
    }
    x / d
  }

  datatype Progress = Progress(skillImprovementRate: real, feedbackQuality: real, learningConsistency: real)

  /** `_calculate_learning_progress`. */
  function LearningProgress(insights: Insights): (p: Progress)
    ensures 0.0 <= p.skillImprovementRate <= |insights.commonSkillGaps| as real
    ensures p.learningConsistency <= 1.0
    ensures p.learningConsistency == 1.0 <==> insights.totalFeedbackReceived.GetOr(0) >= 5
    ensures 0.0 <= insights.averageFeedbackScore.GetOr(0.0) <= 10.0 ==> 0.0 <= p.feedbackQuality <= 1.0
  {
    var total := insights.totalFeedbackReceived.GetOr(1);
    var denominator := if total >= 1 then total else 1;
    var consistency := insights.totalFeedbackReceived.GetOr(0) as real / 5.0;
    Progress(
      Per(|insights.commonSkillGaps| as real, denominator as real),
      insights.averageFeedbackScore.GetOr(0.0) / 10.0,
      if consistency <= 1.0 then consistency else 1.0)
  }

  const CoreSkillsAdvice := "Focus on improving core technical skills"
  const CoursesAdvice := "Consider taking comprehensive skill development courses"
  const MoreFeedbackAdvice := "Apply to more internships to get more feedback"

  /** `_get_learning_recommendations`: each piece of advice appears exactly when its trigger
      holds, in a fixed order. */
  function LearningRecommendations(insights: Insights): (r: seq<string>)
    ensures |r| <= 3
    ensures CoreSkillsAdvice in r <==> insights.averageFeedbackScore.GetOr(0.0) < 6.0
    ensures CoursesAdvice in r <==> |insights.commonSkillGaps| > 3
    ensures MoreFeedbackAdvice in r <==> insights.totalFeedbackReceived.GetOr(0) < 3
    ensures insights.averageFeedbackScore.GetOr(0.0) < 6.0 ==> r[0] == CoreSkillsAdvice
  {
    (if insights.averageFeedbackScore.GetOr(0.0) < 6.0 then [CoreSkillsAdvice] else [])
      + (if |insights.commonSkillGaps| > 3 then [CoursesAdvice] else [])
      + (if insights.totalFeedbackReceived.GetOr(0) < 3 then [MoreFeedbackAdvice] else [])
  }

  // ---------------------------------------------------------------- the learner object

  /** One internship with its improved score, as returned by the improved ranking. */
  datatype ScoredInternship = ScoredInternship(internship: Internship, improvedScore: real)

  function ScoreKey(s: ScoredInternship): real { s.improvedScore }

  function InternshipsOf(r: seq<ScoredInternship>): (xs: seq<Internship>)
    ensures |xs| == |r|
    ensures forall k :: 0 <= k < |r| ==> xs[k] == r[k].internship
  {
    seq(|r|, k requires 0 <= k < |r| => r[k].internship)
  }

  /** One skill loop of `_update_model`: add `delta` to the weight of each lower-cased skill
      in list order, creating unseen skills at `delta`. */
  method AddToEach(weights: map<string, real>, skills: seq<string>, delta: real)
    returns (r: map<string, real>)
    ensures r == BumpAll(weights, LowerAll(skills), delta)
  {
    r := weights;
    for i := 0 to |skills|
      invariant r == BumpAll(weights, LowerAll(skills[..i]), delta)
    {
      var skillLower := Lower(skills[i]);
      ghost var before := r;
      if skillLower in r {
        r := r[skillLower := r[skillLower] + delta];
      } else {
        r := r[skillLower := delta];
      }
      assert r == Bump(before, skillLower, delta);
      assert skills[..i + 1] == skills[..i] + [skills[i]];
      LowerAllSnoc(skills[..i], skills[i]);
      BumpAllSnoc(weights, LowerAll(skills[..i]), skillLower, delta);
    }
    assert skills[..|skills|] == skills;
  }

  /** One preference block of `_update_model`: a non-empty name gains `delta`, and an
      unseen one is created at `delta`. */
  method AddToNamed(prefs: map<string, real>, name: string, delta: real) returns (r: map<string, real>)
    ensures r == BumpNamed(prefs, name, delta)
  {
    r := prefs;
    if name != "" {
      if name in r {
        r := r[name := r[name] + delta];
      } else {
        r := r[name := delta];
      }
    }
  }

  /** The feedback score as a number: Python's `bool` is an `int`; any other value makes
      the division by 10 raise. */
  function NumericScore(v: PyValue): (r: Option<int>)
    ensures r.Some? <==> v.PyInt? || v.PyBool?
    ensures v.PyInt? ==> r == Some(v.i)
  {
    match v
    case PyInt(i) => Some(i)
    case PyBool(b) => Some(if b then 1 else 0)
    case _ => None
  }

  /** The learner's process-wide state: the four weight tables, updated in place. */
  class LearningModel {
    var skillWeights: map<string, real>
    var companyPreferences: map<string, real>
    var locationPreferences: map<string, real>
    var sectorPreferences: map<string, real>

    constructor ()
      ensures Tables() == EmptyWeights
    {
      skillWeights := map[];
      companyPreferences := map[];
      locationPreferences := map[];
      sectorPreferences := map[];
    }

    function Tables(): Weights
      reads this
    {
      Weights(skillWeights, companyPreferences, locationPreferences, sectorPreferences)
    }

    /** `_update_model`. The candidate's skill list and the areas for improvement are passed
        to it in the source but do not influence the update. */
    method UpdateModel(details: Internship, reward: real, skillGaps: seq<string>, strengths: seq<string>)
      modifies this
      ensures Tables() == UpdatedWeights(old(Tables()), details, reward, skillGaps, strengths)
    {
      var step := LearningRate * reward;
      skillWeights := AddToEach(skillWeights, skillGaps, step);
      skillWeights := AddToEach(skillWeights, strengths, step * 0.5);
      companyPreferences := AddToNamed(companyPreferences, Lower(details.company), step);
      locationPreferences := AddToNamed(locationPreferences, Lower(details.location), step);
      sectorPreferences := AddToNamed(sectorPreferences, Lower(details.sector), step);
    }

    /** `process_feedback`. `application` is the stored application's internship details
        (`None` when the lookup finds nothing) and `score` the feedback's
        `recommendation_score` (5 when the key is absent). The reward divides the score by
        10, which raises unless it is a number; an exception returns false before the tables
        change. Saving the learning record reports failure by its return value, which is
        ignored, and updating the candidate profile catches its own exceptions, so neither
        stops the update. */
    method ProcessFeedback(decision: string, score: PyValue, skillGaps: seq<string>, strengths: seq<string>,
                           application: Option<Internship>)
      returns (ok: bool)
      modifies this
      ensures ok <==> application.Some? && NumericScore(score).Some?
      ensures ok ==> Tables() == UpdatedWeights(old(Tables()), application.value,
                                                Reward(decision, NumericScore(score).value), skillGaps, strengths)
      ensures !ok ==> Tables() == old(Tables())
    {
      if application.None? {
        return false;
      }
      var numeric := NumericScore(score);
      if numeric.None? {
        return false;
      }
      var reward := Reward(decision, numeric.value);
      UpdateModel(application.value, reward, skillGaps, strengths);
      return true;
    }

    /** The ranking part of `get_improved_recommendations`: nothing without a candidate id
        or when the insights cannot be fetched; otherwise every internship scored with the
        current tables, best first (stable), cut to `n`. */
    method GetImprovedRecommendations(profile: Resume, internships: seq<Internship>,
                                      insights: Attempt<Insights>, n: nat)
      returns (r: seq<ScoredInternship>)
      ensures Get(profile, "candidate_id", "") == "" || insights.Raised? ==> r == []
      ensures Get(profile, "candidate_id", "") != "" && insights.Ok? ==>
        r == TopImproved(Tables(), Get(profile, "skills", ""), internships, n)
    {
      if Get(profile, "candidate_id", "") == "" || insights.Raised? {
        return [];
      }
      var w := Tables();
      var skills := Get(profile, "skills", "");
      var scored := ScoreEach(ImprovedScorer(w, skills), internships);
      var ranked := SortDesc(scored, ScoreKey);
      r := ranked[..Min(n, |ranked|)];
    }
  }

  /** The scoring loop of `get_improved_recommendations`: each internship with its score,
      in catalogue order. */
  method ScoreEach(score: Internship -> real, internships: seq<Internship>) returns (scored: seq<ScoredInternship>)
    ensures scored == ScoreAll(score, internships)
  {
    scored := [];
    for i := 0 to |internships|
      invariant scored == ScoreAll(score, internships[..i])
    {
      scored := scored + [ScoredInternship(internships[i], score(internships[i]))];
      assert internships[..i + 1] == internships[..i] + [internships[i]];
    }
    assert internships[..|internships|] == internships;
  }

  /** Every internship paired with its score, in catalogue order. */
  function ScoreAll(score: Internship -> real, internships: seq<Internship>): (s: seq<ScoredInternship>)
    ensures |s| == |internships|
    ensures forall k :: 0 <= k < |s| ==> s[k] == ScoredInternship(internships[k], score(internships[k]))
  {
    if internships == [] then []
    else
      var init := internships[..|internships| - 1];
      var last := internships[|internships| - 1];
      ScoreAll(score, init) + [ScoredInternship(last, score(last))]
  }

  /** The first `n` internships by score, best first; ties keep catalogue order. */
  function TopScored(score: Internship -> real, internships: seq<Internship>, n: nat): (r: seq<ScoredInternship>)
    ensures |r| == Min(n, |internships|)
    ensures SortedDesc(r, ScoreKey)
    ensures multiset(r) <= multiset(ScoreAll(score, internships))
  {
    var ranked := SortDesc(ScoreAll(score, internships), ScoreKey);
    var m := Min(n, |ranked|);
    assert ranked == ranked[..m] + ranked[m..];
    ranked[..m]
  }

  lemma InternshipsOfAppend(a: seq<ScoredInternship>, b: seq<ScoredInternship>)
    ensures InternshipsOf(a + b) == InternshipsOf(a) + InternshipsOf(b)
  {
  }

  /** Scoring keeps the catalogue: the internships of the scored list are the input. */
  lemma InternshipsOfScoreAll(score: Internship -> real, internships: seq<Internship>)
    ensures InternshipsOf(ScoreAll(score, internships)) == internships
  {
  }

  /** Reordering a scored list reorders its internships the same way. */
  lemma {:induction false} InternshipsOfPermutation(a: seq<ScoredInternship>, b: seq<ScoredInternship>)
    requires multiset(a) == multiset(b)
    ensures multiset(InternshipsOf(a)) == multiset(InternshipsOf(b))
    decreases |a|
  {
    if a == [] {
      assert |b| == |multiset(b)| == 0;
    } else {
      var j := MatchFirst(a, b);
      var rest := b[..j] + b[j + 1..];
      InternshipsOfPermutation(a[1..], rest);
      InternshipsOfWithout(b, j);
      InternshipsOfCons(a);
    }
  }

  /** The first element of a non-empty list sits at some position `j` of any reordering,
      and the rest of the list is a reordering of the other without position `j`. */
  lemma MatchFirst<T>(a: seq<T>, b: seq<T>) returns (j: int)
    requires a != [] && multiset(a) == multiset(b)
    ensures 0 <= j < |b| && b[j] == a[0]
    ensures multiset(a[1..]) == multiset(b[..j] + b[j + 1..])
  {
    j := PositionOf(a[0], b);
    MultisetWithout(b, j);
    MultisetTail(a);
  }

  /** An element of a list's multiset occurs at some position of the list. */
  lemma PositionOf<T>(x: T, b: seq<T>) returns (j: int)
    requires x in multiset(b)
    ensures 0 <= j < |b| && b[j] == x
  {
    j :| 0 <= j < |b| && b[j] == x;
  }

  lemma MultisetTail<T>(a: seq<T>)
    requires a != []
    ensures multiset(a[1..]) == multiset(a) - multiset{a[0]}
  {
    assert a == [a[0]] + a[1..];
  }

  /** Removing one position removes its element from the multiset. */
  lemma MultisetWithout<T>(b: seq<T>, j: int)
    requires 0 <= j < |b|
    ensures multiset(b[..j] + b[j + 1..]) == multiset(b) - multiset{b[j]}
  {
    assert b == b[..j] + [b[j]] + b[j + 1..];
  }

  lemma InternshipsOfCons(a: seq<ScoredInternship>)
    requires a != []
    ensures InternshipsOf(a) == [a[0].internship] + InternshipsOf(a[1..])
  {
  }

  /** Removing one scored entry removes its internship. */
  lemma InternshipsOfWithout(b: seq<ScoredInternship>, j: int)
    requires 0 <= j < |b|
    ensures multiset(InternshipsOf(b)) == multiset(InternshipsOf(b[..j] + b[j + 1..])) + multiset{b[j].internship}
  {
    assert b == b[..j] + [b[j]] + b[j + 1..];
    InternshipsOfAppend(b[..j] + [b[j]], b[j + 1..]);
    InternshipsOfAppend(b[..j], [b[j]]);
    InternshipsOfAppend(b[..j], b[j + 1..]);
  }

  /** The learner's ranking for one candidate: improved scores under tables `w`. */
  function TopImproved(w: Weights, candidateSkills: string, internships: seq<Internship>, n: nat): seq<ScoredInternship> {
    TopScored(ImprovedScorer(w, candidateSkills), internships, n)
  }

  /** `_calculate_improved_score` for one candidate under tables `w`, as a scoring function. */
  function ImprovedScorer(w: Weights, candidateSkills: string): (score: Internship -> real)
    ensures forall x :: score(x) == ImprovedScore(w, candidateSkills, x)
  {
    (x: Internship) => ImprovedScore(w, candidateSkills, x)
  }

  /** Every entry the ranking keeps is a catalogue entry carrying its own score. */
  lemma TopScoredEntries(score: Internship -> real, internships: seq<Internship>, n: nat)
    ensures var r := TopScored(score, internships, n);
      forall k :: 0 <= k < |r| ==> r[k].internship in internships && r[k].improvedScore == score(r[k].internship)
    ensures multiset(InternshipsOf(TopScored(score, internships, n))) <= multiset(internships)
  {
    var scored := ScoreAll(score, internships);
    var r := TopScored(score, internships, n);
    var ranked := SortDesc(scored, ScoreKey);
    assert ranked == r + ranked[|r|..];
    InternshipsOfAppend(r, ranked[|r|..]);
    InternshipsOfPermutation(ranked, scored);
    InternshipsOfScoreAll(score, internships);
    forall k | 0 <= k < |r|
      ensures r[k].internship in internships && r[k].improvedScore == score(r[k].internship)
    {
      assert r[k] in multiset(scored);
      var j :| 0 <= j < |scored| && scored[j] == r[k];
    }
  }

  /** The ranking leaves out no internship that scores above the last entry it keeps. */
  lemma TopScoredKeepsBest(score: Internship -> real, internships: seq<Internship>, n: nat, x: Internship)
    requires x in internships
    requires var r := TopScored(score, internships, n); |r| > 0 && score(x) > r[|r| - 1].improvedScore
    ensures x in InternshipsOf(TopScored(score, internships, n))
  {
    var scored := ScoreAll(score, internships);
    var r := TopScored(score, internships, n);
    var j :| 0 <= j < |internships| && internships[j] == x;
    var y := scored[j];
    TopNKeepsBest(scored, ScoreKey, |r|, y);
    var k :| 0 <= k < |r| && r[k] == y;
    assert InternshipsOf(r)[k] == x;
  }

  /** The improved ranking keeps min(n, |internships|) catalogue entries, best first, each
      carrying its own improved score under the tables, which lies in [0, 1]. */
  lemma TopImprovedEntries(w: Weights, candidateSkills: string, internships: seq<Internship>, n: nat)
    ensures var r := TopImproved(w, candidateSkills, internships, n);
      && |r| == Min(n, |internships|)
      && SortedDesc(r, ScoreKey)
      && (forall k :: 0 <= k < |r| ==> r[k].internship in internships)
      && (forall k :: 0 <= k < |r| ==> r[k].improvedScore == ImprovedScore(w, candidateSkills, r[k].internship))
      && (forall k :: 0 <= k < |r| ==> 0.0 <= r[k].improvedScore <= 1.0)
      && multiset(InternshipsOf(r)) <= multiset(internships)
  {
    TopScoredEntries(ImprovedScorer(w, candidateSkills), internships, n);
  }

  /** No internship whose improved score beats the last entry kept is cut. */
  lemma TopImprovedKeepsBest(w: Weights, candidateSkills: string, internships: seq<Internship>, n: nat, x: Internship)
    requires x in internships
    requires var r := TopImproved(w, candidateSkills, internships, n);
      |r| > 0 && ImprovedScore(w, candidateSkills, x) > r[|r| - 1].improvedScore
    ensures x in InternshipsOf(TopImproved(w, candidateSkills, internships, n))
  {
    TopScoredKeepsBest(ImprovedScorer(w, candidateSkills), internships, n, x);
  }

  /** `int(improved_score * 100)` as app.py reports it: a percentage in [0, 100]. */
  function ImprovedMatchScore(improvedScore: real): (p: int)
    requires 0.0 <= improvedScore <= 1.0
    ensures 0 <= p <= 100
    ensures p as real <= improvedScore * 100.0 < p as real + 1.0
  {
    (improvedScore * 100.0).Floor
  }
}
