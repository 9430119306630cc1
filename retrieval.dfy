/** What the three retrieval-based recommenders share: the candidate profile text that is
    embedded or vectorised, the top-k selection over a similarity vector, the skill list
    cleaning, and the catalogue-order fallback list of the two backup recommenders. */
module Retrieval {
  import opened Text
  import opened Records
  import opened Ranking

  // ---------------------------------------------------------------- profile text

  /** The line break and eight-space indent that open every line of the profile template. */
  const Indent: string := "\n        "

  function Line(name: string, value: string): string {
    Indent + name + ": " + value
  }

  /** The template before `.strip()`: a header line and nine labelled lines, each value
      read with `resume.get(key, 'N/A')`, closed by an indented empty line. */
  function RawProfile(resume: Resume): string {
    Indent + (ProfileHead(resume) + " " + Get(resume, "projects", "N/A") + Indent)
  }

  /** The stripped profile up to and including the `Projects:` label. */
  function ProfileHead(resume: Resume): (h: string)
    ensures StartsWith(h, "CANDIDATE PROFILE:")
    ensures EndsWith(h, Indent + "Projects:")
    ensures h[0] == 'C' && h[|h| - 1] == ':'
  {
    var top := "CANDIDATE PROFILE:";
    var last := Indent + "Projects:";
    var rest := ProfileLines(resume) + last;
    AppendAffixes(top, rest);
    AppendAffixes(ProfileLines(resume), last);
    EndsWithAppend(top, rest, last);
    var h := top + rest;
    assert h[0] == h[..18][0];
    assert h[|h| - 1] == h[|h| - 18..][17];
    h
  }

  /** The eight labelled lines from Name to Certifications: each label with the resume key
      its value is read from. */
  const ProfileFields: seq<(string, string)> := [
    ("Name", "name"), ("Education", "education"), ("Skills", "skills"),
    ("Experience", "experience"), ("Interests", "interests"),
    ("Location Preference", "location_preference"), ("Career Goals", "career_goals"),
    ("Certifications", "certifications")]

  function ProfileLines(resume: Resume): string {
    Lines(resume, ProfileFields)
  }

  /** One line per field, in the table's order, with "N/A" for an absent key. */
  function Lines(resume: Resume, fields: seq<(string, string)>): string {
    if fields == [] then []
    else Line(fields[0].0, Get(resume, fields[0].1, "N/A")) + Lines(resume, fields[1..])
  }

  lemma {:induction false} LinesAgree(r1: Resume, r2: Resume, fields: seq<(string, string)>)
    requires forall k :: 0 <= k < |fields| ==> Get(r1, fields[k].1, "N/A") == Get(r2, fields[k].1, "N/A")
    ensures Lines(r1, fields) == Lines(r2, fields)
  {
    if fields != [] {
      LinesAgree(r1, r2, fields[1..]);
    }
  }

  /** `create_candidate_profile_text` / `create_candidate_profile`. */
  function ProfileText(resume: Resume): string {
    Strip(RawProfile(resume))
  }

  lemma IndentSpaces()
    ensures |Indent| == 9 && forall i :: 0 <= i < 9 ==> IsSpace(Indent[i])
  {
  }

  lemma DropIndent(body: string)
    requires body != [] && !IsSpace(body[0])
    ensures StripLeft(Indent + body) == body
  {
    var raw := Indent + body;
    IndentSpaces();
    forall i | 0 <= i < 9
      ensures IsSpace(raw[i])
    {
      assert raw[i] == Indent[i];
    }
    assert raw[9] == body[0];
    LeadCountUnique(raw, 9);
  }

  lemma IndentTrail()
    ensures TrailStart(Indent) == 0
  {
    IndentSpaces();
    TrailStartUnique(Indent, 0);
  }

  lemma SpaceTrail()
    ensures TrailStart(" ") == 0
  {
    TrailStartUnique(" ", 0);
  }

  /** Stripping the indented template around `head + " " + p` keeps `head` whole (it starts
      and ends with a visible character) and strips only the right end of `p`, taking the
      separating space along when `p` is blank. */
  lemma StripFramed(head: string, p: string)
    requires head != [] && !IsSpace(head[0]) && !IsSpace(head[|head| - 1])
    ensures TrailStart(p) > 0 ==> Strip(Indent + (head + " " + p + Indent)) == head + " " + StripRight(p)
    ensures TrailStart(p) == 0 ==> Strip(Indent + (head + " " + p + Indent)) == head
  {
    var body := head + " " + p + Indent;
    assert body[0] == head[0];
    DropIndent(body);
    IndentTrail();
    StripRightAppend(head + " " + p, Indent);
    StripRightAppend(head + " ", p);
    SpaceTrail();
    StripRightAppend(head, " ");
    TrailStartUnique(head, |head|);
  }

  /** The profile text is the fixed label sequence Name ... Projects with each value (or
      "N/A") in place; stripping only removes the template's outer indentation and any
      whitespace at the end of the projects value, together with the space before it when
      that value is blank. */
  lemma ProfileTextShape(resume: Resume)
    ensures var p := Get(resume, "projects", "N/A");
      && (TrailStart(p) > 0 ==> ProfileText(resume) == ProfileHead(resume) + " " + StripRight(p))
      && (TrailStart(p) == 0 ==> ProfileText(resume) == ProfileHead(resume))
  {
    var head := ProfileHead(resume);
    var p := Get(resume, "projects", "N/A");
    assert RawProfile(resume) == Indent + (head + " " + p + Indent);
    StripFramed(head, p);

  }

  /** The profile text always opens with its header. */
  lemma ProfileTextStarts(resume: Resume)
    ensures StartsWith(ProfileText(resume), "CANDIDATE PROFILE:")
  {
    var head := ProfileHead(resume);
    var p := Get(resume, "projects", "N/A");
    assert RawProfile(resume) == Indent + (head + " " + p + Indent);
    FramedStarts(head, p, "CANDIDATE PROFILE:");
  }

  lemma FramedStarts(head: string, p: string, x: string)
    requires head != [] && !IsSpace(head[0]) && !IsSpace(head[|head| - 1])
    requires StartsWith(head, x)
    ensures StartsWith(Strip(Indent + (head + " " + p + Indent)), x)
  {
    StripFramed(head, p);
    StartsWithAppend(head + " ", StripRight(p), x);
    StartsWithAppend(head, " ", x);
  }

  /** The profile depends on the resume only through the nine values it reads, each
      defaulting to "N/A": two resumes that read the same give the same text, and a resume
      without any of the keys reads as the empty one. */
  lemma ProfileTextAgree(r1: Resume, r2: Resume)
    requires forall k :: 0 <= k < |ProfileFields| ==>
      Get(r1, ProfileFields[k].1, "N/A") == Get(r2, ProfileFields[k].1, "N/A")
    requires Get(r1, "projects", "N/A") == Get(r2, "projects", "N/A")
    ensures ProfileText(r1) == ProfileText(r2)
  {
    LinesAgree(r1, r2, ProfileFields);
  }

  // ---------------------------------------------------------------- top-k selection

  /** The catalogue positions 0 .. n-1 in order. */
  function Indices(n: nat): (r: seq<nat>)
    ensures |r| == n
    ensures forall i :: 0 <= i < n ==> r[i] == i
  {
    seq(n, i requires 0 <= i < n => i as nat)
  }

  /** Similarity of catalogue row `i`, as the ranking key. */
  function SimKey(sims: seq<real>): (key: nat -> real)
    ensures forall i: nat :: i < |sims| ==> key(i) == sims[i]
  {
    (i: nat) => if i < |sims| then sims[i] else 0.0
  }

  /** `np.argsort(similarities)[::-1][:top_k]`: row positions by non-increasing similarity,
      cut with Python slice semantics (a negative `top_k` drops from the end). */
  function TopK(sims: seq<real>, topK: int): seq<nat> {
    PyPrefix(SortDesc(Indices(|sims|), SimKey(sims)), topK)
  }

  /** Top-k selection returns distinct row positions, as many as the slice allows. */
  lemma TopKPositions(sims: seq<real>, topK: int)
    ensures var r := TopK(sims, topK);
      && |r| == (if topK >= 0 then Min(topK, |sims|) else Max(0, |sims| + topK))
      && (forall i :: 0 <= i < |r| ==> r[i] < |sims|)
      && NoDup(r)
  {
    var all := Indices(|sims|);
    var key := SimKey(sims);
    var sorted := SortDesc(all, key);
    var r := TopK(sims, topK);
    SortDescSameElements(all, key);
    SortDescNoDup(all, key);
    forall i | 0 <= i < |r|
      ensures r[i] < |sims|
    {
      assert r[i] == sorted[i];
      assert sorted[i] in sorted;
    }
    assert r == sorted[..|r|];
  }

  /** The selected positions come by non-increasing similarity. */
  lemma TopKOrdered(sims: seq<real>, topK: int)
    ensures var r := TopK(sims, topK);
      forall i, j :: 0 <= i < j < |r| ==> r[i] < |sims| && r[j] < |sims| && sims[r[i]] >= sims[r[j]]
  {
    var all := Indices(|sims|);
    var key := SimKey(sims);
    var sorted := SortDesc(all, key);
    var r := TopK(sims, topK);
    TopKPositions(sims, topK);
    forall i, j | 0 <= i < j < |r|
      ensures sims[r[i]] >= sims[r[j]]
    {
      assert r[i] == sorted[i] && r[j] == sorted[j];
    }
  }

  /** No row the selection leaves out is more similar than the last row it keeps. */
  lemma TopKKeepsBest(sims: seq<real>, topK: int, j: nat)
    requires j < |sims|
    requires var r := TopK(sims, topK); |r| > 0 && j !in r
    ensures var r := TopK(sims, topK); r[|r| - 1] < |sims| && sims[j] <= sims[r[|r| - 1]]
  {
    var all := Indices(|sims|);
    var key := SimKey(sims);
    var sorted := SortDesc(all, key);
    var r := TopK(sims, topK);
    TopKPositions(sims, topK);
    assert r == sorted[..|r|];
    var last := sorted[|r| - 1];
    assert r[|r| - 1] == last;
    assert all[j] == j && j in all;
    if sims[j] > sims[last] {
      assert key(j) > key(last);
      TopNKeepsBest(all, key, |r|, j);
      assert false;
    }
  }

  // ---------------------------------------------------------------- skill lists

  /** `[s.strip() for s in pieces if s.strip()]`. */
  function StripNonEmpty(pieces: seq<string>): (r: seq<string>)
    ensures |r| <= |pieces|
    ensures forall i :: 0 <= i < |r| ==> r[i] != [] && Strip(r[i]) == r[i]
    ensures forall y :: y in r ==> exists p :: p in pieces && y == Strip(p)
  {
    if pieces == [] then []
    else
      var rest := StripNonEmpty(pieces[1..]);
      var s := Strip(pieces[0]);
      StripIdempotent(pieces[0]);
      if s != [] then [s] + rest else rest
  }

  /** Every non-blank piece survives cleaning. */
  lemma {:induction false} StripNonEmptyKeeps(pieces: seq<string>, x: string)
    requires x in pieces && Strip(x) != []
    ensures Strip(x) in StripNonEmpty(pieces)
  {
    if pieces[0] != x {
      StripNonEmptyKeeps(pieces[1..], x);
    }
  }

  /** Cleaning keeps the order of the pieces: cleaning two lists one after the other is
      cleaning their concatenation. */
  lemma {:induction false} StripNonEmptyAppend(a: seq<string>, b: seq<string>)
    ensures StripNonEmpty(a + b) == StripNonEmpty(a) + StripNonEmpty(b)
  {
    if a != [] {
      assert (a + b)[1..] == a[1..] + b;
      StripNonEmptyAppend(a[1..], b);
    } else {
      assert a + b == b;
    }
  }

  /** The first `n` cleaned pieces: each is the strip of some piece, and when no more than
      `n` pieces are non-blank, every non-blank piece is among them. */
  lemma CleanedPrefix(pieces: seq<string>, n: nat)
    ensures forall y :: y in PyPrefix(StripNonEmpty(pieces), n) ==> exists p :: p in pieces && y == Strip(p)
    ensures |StripNonEmpty(pieces)| <= n ==>
              forall p :: p in pieces && Strip(p) != [] ==> Strip(p) in PyPrefix(StripNonEmpty(pieces), n)
  {
    var cleaned := StripNonEmpty(pieces);
    forall y | y in PyPrefix(cleaned, n)
      ensures y in cleaned
    {
      var k :| 0 <= k < |PyPrefix(cleaned, n)| && PyPrefix(cleaned, n)[k] == y;
      assert cleaned[k] == y;
    }
    if |cleaned| <= n {
      assert PyPrefix(cleaned, n) == cleaned;
      forall p | p in pieces && Strip(p) != []
        ensures Strip(p) in cleaned
      {
        StripNonEmptyKeeps(pieces, p);
      }
    }
  }

  /** The fixed pair used when a row has no preferred skills. */
  const DefaultSkills: seq<string> := ["Communication", "Teamwork"]

  /** `row['Preferred Skill(s)'].split(', ')` when the cell is filled, else `default`. */
  function SkillCell(row: Posting, default: seq<string>): seq<string> {
    match row.preferredSkills
    case Some(s) => Split(s, ", ")
    case None => default
  }

  // ---------------------------------------------------------------- catalogue fallback

  /** One entry of the backup recommenders' fallback: the idx-th catalogue row with score
      75 + 2*idx (not capped) and the raw comma-split skills. */
  function FallbackEntry(row: Posting, idx: nat): (r: Recommendation)
    ensures r.rank == idx + 1 && r.matchScore == 75 + 2 * idx
    ensures r.company == row.companyName && r.title == row.title
  {
    Recommendation(idx + 1, row.companyName, row.title, 75 + 2 * idx,
                   "Good match based on " + row.sector + " sector and " + row.areaField + " field",
                   SkillCell(row, DefaultSkills))
  }

  /** The number of fallback entries: `range(n)` filtered by `idx < len(df)`. */
  function FallbackCount(n: int, rows: nat): (c: nat)
    ensures c <= rows
    ensures n >= 0 ==> c == Min(n, rows)
    ensures n <= 0 ==> c == 0
  {
    if n <= 0 then 0 else Min(n, rows)
  }

  /** `create_fallback_recommendations(num_recommendations)` of both backup recommenders:
      the first rows of the catalogue in order. */
  method CatalogFallback(catalog: seq<Posting>, n: int) returns (r: seq<Recommendation>)
    ensures |r| == FallbackCount(n, |catalog|)
    ensures forall i :: 0 <= i < |r| ==> r[i] == FallbackEntry(catalog[i], i)
  {
    r := [];
    var idx := 0;
    while idx < n
      invariant 0 <= idx <= Max(n, 0)
      invariant |r| == Min(idx, |catalog|)
      invariant forall i :: 0 <= i < |r| ==> r[i] == FallbackEntry(catalog[i], i)
      decreases n - idx
    {
      if idx < |catalog| {
        r := r + [FallbackEntry(catalog[idx], idx)];
      }
      idx := idx + 1;
    }
  }

  /** The fallback ranks run 1..k and its scores climb by two from 75, so they pass 95 from
      the twelfth entry on. */
  lemma FallbackScores(catalog: seq<Posting>, r: seq<Recommendation>)
    requires forall i :: 0 <= i < |r| ==> i < |catalog| && r[i] == FallbackEntry(catalog[i], i)
    ensures DenseRanks(r)
    ensures forall i :: 0 <= i < |r| ==> r[i].matchScore >= 75
    ensures forall i, j :: 0 <= i < j < |r| ==> r[i].matchScore < r[j].matchScore
    ensures |r| >= 12 ==> r[11].matchScore == 97
  {
    forall i | 0 <= i < |r|
      ensures r[i].rank == i + 1 && r[i].matchScore == 75 + 2 * i
    {
      assert r[i] == FallbackEntry(catalog[i], i);
    }
  }
}
