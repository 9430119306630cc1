/** The TF-IDF backup recommender: rank the catalogue rows by their similarity to the
    candidate profile and describe the best ones with a fixed score ladder. The vectoriser
    and cosine similarity are a parameter: a function from the profile text to one score per
    catalogue row, or the exception it raised. */
module SimpleBackup {
  import opened Text
  import opened Records
  import opened Ranking
  import opened Retrieval

  /** The score ladder of the similarity path: 75, 78, 81, ... capped at 95. */
  function LadderScore(idx: nat): (s: int)
    ensures 75 <= s <= 95
    ensures s == 95 <==> idx >= 7
  {
    Min(75 + 3 * idx, 95)
  }

  /** The ladder never goes down from one position to the next. */
  lemma LadderMonotone(i: nat, j: nat)
    requires i <= j
    ensures LadderScore(i) <= LadderScore(j)
  {
  }

  /** The cleaned skill list of a row: the comma-split cell, stripped, blanks dropped, at
      most five. */
  function HighlightSkills(row: Posting): (skills: seq<string>)
    ensures |skills| <= 5
    ensures forall k :: 0 <= k < |skills| ==> skills[k] != [] && Strip(skills[k]) == skills[k]
    ensures skills <= StripNonEmpty(SkillCell(row, DefaultSkills))
    ensures |skills| == Min(5, |StripNonEmpty(SkillCell(row, DefaultSkills))|)
    ensures forall s :: s in skills ==> exists p :: p in SkillCell(row, DefaultSkills) && s == Strip(p)
    ensures |StripNonEmpty(SkillCell(row, DefaultSkills))| <= 5 ==>
              forall p :: p in SkillCell(row, DefaultSkills) && Strip(p) != [] ==> Strip(p) in skills
  {
    CleanedPrefix(SkillCell(row, DefaultSkills), 5);
    PyPrefix(StripNonEmpty(SkillCell(row, DefaultSkills)), 5)
  }

  /** One entry of the similarity path: the row at position `idx` of the selection. */
  function SimilarEntry(row: Posting, idx: nat): (r: Recommendation)
    ensures r.rank == idx + 1 && r.matchScore == LadderScore(idx)
    ensures r.company == row.companyName && r.title == row.title
    ensures r.skills == HighlightSkills(row)
  {
    Recommendation(idx + 1, row.companyName, row.title, LadderScore(idx), SimilarReason(row),
                   HighlightSkills(row))
  }

  /** The reasoning sentence names the row's sector, field, location and state. */
  function SimilarReason(row: Posting): string {
    "Strong match based on " + row.sector + " sector and " + row.areaField
    + " specialization. " + "Location (" + row.location + ", " + row.state
    + ") and skills alignment make this a good fit."
  }

  /** The rows the similarity path describes: `similar_indices[:num_recommendations]` of a
      top-`2 * num_recommendations` selection. */
  function Selection(sims: seq<real>, n: int): seq<nat> {
    PyPrefix(TopK(sims, 2 * n), n)
  }

  /** The selection is at most `n` distinct rows of the catalogue, by non-increasing
      similarity. */
  lemma SelectionProperties(sims: seq<real>, n: int)
    ensures var sel := Selection(sims, n);
      && (n >= 0 ==> |sel| <= n)
      && (forall i :: 0 <= i < |sel| ==> sel[i] < |sims|)
      && NoDup(sel)
      && (forall i, j :: 0 <= i < j < |sel| ==> sims[sel[i]] >= sims[sel[j]])
  {
    var top := TopK(sims, 2 * n);
    var sel := Selection(sims, n);
    TopKPositions(sims, 2 * n);
    TopKOrdered(sims, 2 * n);
    assert sel == top[..|sel|];
    forall i | 0 <= i < |sel|
      ensures sel[i] == top[i]
    {
    }
  }

  /** Asking for twice as many and keeping the first `n` is the same as asking for `n`, so no
      row left out of the selection beats the last one kept (`TopKKeepsBest`). */
  lemma SelectionIsTopK(sims: seq<real>, n: nat)
    ensures Selection(sims, n) == TopK(sims, n)
  {
    var all := PyPrefix(TopK(sims, 2 * n), n);
    assert TopK(sims, 2 * n) == PyPrefix(SortDesc(Indices(|sims|), SimKey(sims)), 2 * n);
  }

  /** `get_recommendations`: the similarity path, or the catalogue-order fallback when the
      similarity step raised. */
  method GetRecommendations(resume: Resume, n: int, catalog: seq<Posting>,
                            similarity: string -> Attempt<seq<real>>)
    returns (r: seq<Recommendation>)
    requires forall t :: similarity(t).Ok? ==> |similarity(t).value| == |catalog|
    ensures similarity(ProfileText(resume)).Raised? ==>
      |r| == FallbackCount(n, |catalog|)
      && forall i :: 0 <= i < |r| ==> r[i] == FallbackEntry(catalog[i], i)
    ensures similarity(ProfileText(resume)).Ok? ==>
      var sel := Selection(similarity(ProfileText(resume)).value, n);
      && |r| == |sel|
      && forall i :: 0 <= i < |r| ==> sel[i] < |catalog| && r[i] == SimilarEntry(catalog[sel[i]], i)
  {
    var attempt := similarity(ProfileText(resume));
    if attempt.Raised? {
      r := CatalogFallback(catalog, n);
      return;
    }
    var sel := Selection(attempt.value, n);
    SelectionProperties(attempt.value, n);
    r := DescribeSelection(catalog, sel);
  }

  /** The entries for the selected rows `sel`, position by position. */
  function SimilarList(catalog: seq<Posting>, sel: seq<int>): (r: seq<Recommendation>)
    requires forall i :: 0 <= i < |sel| ==> 0 <= sel[i] < |catalog|
    ensures |r| == |sel|
  {
    if sel == [] then []
    else SimilarList(catalog, sel[..|sel| - 1]) + [SimilarEntry(catalog[sel[|sel| - 1]], |sel| - 1)]
  }

  lemma {:induction false} SimilarListAt(catalog: seq<Posting>, sel: seq<int>, i: nat)
    requires forall k :: 0 <= k < |sel| ==> 0 <= sel[k] < |catalog|
    requires i < |sel|
    ensures SimilarList(catalog, sel)[i] == SimilarEntry(catalog[sel[i]], i)
  {
    if i < |sel| - 1 {
      SimilarListAt(catalog, sel[..|sel| - 1], i);
    }
  }

  /** The loop of `get_recommendations` over `enumerate(similar_indices[:n])`. */
  method DescribeSelection(catalog: seq<Posting>, sel: seq<int>) returns (r: seq<Recommendation>)
    requires forall i :: 0 <= i < |sel| ==> 0 <= sel[i] < |catalog|
    ensures |r| == |sel|
    ensures forall i :: 0 <= i < |r| ==> r[i] == SimilarEntry(catalog[sel[i]], i)
  {
    r := [];
    var idx := 0;
    while idx < |sel|
      invariant 0 <= idx <= |sel|
      invariant r == SimilarList(catalog, sel[..idx])
    {
      var row := catalog[sel[idx]];
      assert sel[..idx + 1][..idx] == sel[..idx];
      r := r + [SimilarEntry(row, idx)];
      idx := idx + 1;
    }
    assert sel[..idx] == sel;
    forall i | 0 <= i < |r|
      ensures r[i] == SimilarEntry(catalog[sel[i]], i)
    {
      SimilarListAt(catalog, sel, i);
    }
  }

  /** What the similarity path promises of its list: ranks 1..k, scores in [75, 95] that never
      go down, at most five cleaned skills per entry, and distinct rows. */
  lemma SimilarListProperties(catalog: seq<Posting>, sel: seq<nat>, r: seq<Recommendation>)
    requires |r| == |sel|
    requires forall i :: 0 <= i < |r| ==> sel[i] < |catalog| && r[i] == SimilarEntry(catalog[sel[i]], i)
    ensures DenseRanks(r)
    ensures forall i :: 0 <= i < |r| ==> 75 <= r[i].matchScore <= 95 && |r[i].skills| <= 5
    ensures forall i, j :: 0 <= i <= j < |r| ==> r[i].matchScore <= r[j].matchScore
  {
    forall i, j | 0 <= i <= j < |r|
      ensures r[i].matchScore <= r[j].matchScore
    {
      assert r[i].matchScore == LadderScore(i) && r[j].matchScore == LadderScore(j);
      LadderMonotone(i, j);
    }
  }
}
