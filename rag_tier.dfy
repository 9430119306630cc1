/** The generative (primary) recommender: retrieve the fifteen catalogue rows most similar to
    the candidate profile, ask a language model to rank them, and read its answer as a JSON
    array, falling back to a fixed description of the first five retrieved rows when the
    answer is missing or unreadable. The prompt and the HTTP call are outside the model: the
    model's answer arrives as an optional string, and `json.loads` is a partial function
    passed in. */
module RagRecommender {
  import opened Text
  import opened Records
  import opened Ranking
  import opened Retrieval

  /** What `json.loads` made of the extracted text: an array of dictionaries, or any other
      JSON value. */
  datatype Json = JArray(items: seq<RecDict>) | JOther

  /** How many rows the retrieval step hands to the language model. */
  const RetrievedRows: nat := 15

  /** How many retrieved rows the fallback describes. */
  const FallbackRows: nat := 5

  // ---------------------------------------------------------------- answer extraction

  /** Python's `s[a:b]` for `0 <= a` and `b <= len(s)`: empty when `b <= a`. */
  function Slice(s: string, a: nat, b: nat): (r: string)
    requires a <= |s| && b <= |s|
    ensures |r| == if a <= b then b - a else 0
    ensures a <= b ==> r == s[a..b]
  {
    if a <= b then s[a..b] else []
  }

  /** The JSON-locating rule applied to the stripped answer `c`: the whole of it when it is
      already bracketed, otherwise the text from its first `[` through its last `]`; no text
      at all when either bracket is missing. */
  function ExtractJson(c: string): (r: Option<string>)
    ensures r.Some? <==> '[' in c && ']' in c
    ensures r.Some? && r.value != [] ==> r.value[0] == '[' && r.value[|r.value| - 1] == ']'
  {
    if StartsWith(c, "[") && EndsWith(c, "]") then
      assert c[0] == c[..1][0] && c[|c| - 1] == c[|c| - 1..][0];
      Some(c)
    else
      var a := Find(c, '[');
      var b := RFind(c, ']');
      if a != -1 && b != -1 then Some(Slice(c, a, b + 1)) else None
  }

  /** The whole-answer branch is a shortcut: on a bracketed answer the first `[` is its
      first character and the last `]` its last, so the general rule picks the same text. */
  lemma ExtractJsonOutermost(c: string)
    requires '[' in c && ']' in c
    ensures 0 <= Find(c, '[') && 0 <= RFind(c, ']')
    ensures ExtractJson(c) == Some(Slice(c, Find(c, '['), RFind(c, ']') + 1))
  {
    if StartsWith(c, "[") && EndsWith(c, "]") {
      BracketedEnds(c);
    } else {
      UnbracketedAnswer(c);
    }
  }

  /** A bracketed answer has its first `[` at the front and its last `]` at the back, so
      the text between them is all of it. */
  lemma BracketedEnds(c: string)
    requires StartsWith(c, "[") && EndsWith(c, "]")
    ensures Find(c, '[') == 0 && RFind(c, ']') == |c| - 1
    ensures ExtractJson(c) == Some(Slice(c, 0, |c|))
  {
    assert c[0] == c[..1][0];
    assert c[|c| - 1] == c[|c| - 1..][0];
    assert c[0..|c|] == c;
  }

  lemma UnbracketedAnswer(c: string)
    requires '[' in c && ']' in c
    requires !(StartsWith(c, "[") && EndsWith(c, "]"))
    ensures ExtractJson(c) == Some(Slice(c, Find(c, '['), RFind(c, ']') + 1))
  {
    var a := Find(c, '[');
    var b := RFind(c, ']');
    assert a != -1;
    assert b != -1;
    assert ExtractJson(c) == (if a != -1 && b != -1 then Some(Slice(c, a, b + 1)) else None);
  }

  /** The recommendations the model's answer yields, or `None` when the fallback is used: no
      answer or an empty one, no brackets, text that does not parse, or a parsed value that
      is not a non-empty list. */
  function AnswerItems(response: Option<string>, parse: string -> Option<Json>): (r: Option<seq<RecDict>>)
    ensures r.Some? ==> |r.value| > 0
    ensures r.Some? <==>
      response.Some? && ExtractJson(Strip(response.value)).Some?
      && parse(ExtractJson(Strip(response.value)).value).Some?
      && parse(ExtractJson(Strip(response.value)).value).value.JArray?
      && |parse(ExtractJson(Strip(response.value)).value).value.items| > 0
  {
    if response.None? || response.value == [] then None
    else
      match ExtractJson(Strip(response.value))
      case None => None
      case Some(text) =>
        match parse(text)
        case Some(JArray(items)) => if |items| > 0 then Some(items) else None
        case _ => None
  }

  // ---------------------------------------------------------------- fallback

  /** One fallback entry: score 75 + 2*idx capped at 95, and the raw comma-split skills (none
      when the cell is empty). */
  function RagFallbackEntry(row: Posting, idx: nat): (r: Recommendation)
    ensures r.rank == idx + 1 && r.matchScore == Min(75 + 2 * idx, 95)
    ensures 75 <= r.matchScore <= 95
    ensures r.company == row.companyName && r.title == row.title
  {
    Recommendation(idx + 1, row.companyName, row.title, Min(75 + 2 * idx, 95), RagReason(row),
                   SkillCell(row, []))
  }

  /** The fallback's reasoning names the row's sector and field. */
  function RagReason(row: Posting): string {
    "Strong alignment with " + row.sector + " sector and " + row.areaField
    + " specialization. Location and requirements match candidate profile well."
  }

  /** The fallback list for the given rows, position by position. */
  function RagFallbackList(rows: seq<Posting>): (r: seq<Recommendation>)
    ensures |r| == |rows|
  {
    seq(|rows|, i requires 0 <= i < |rows| => RagFallbackEntry(rows[i], i))
  }

  /** `create_fallback_recommendations(similar_internships.head(5))`. */
  method RagFallback(rows: seq<Posting>) returns (r: seq<Recommendation>)
    ensures r == RagFallbackList(rows)
  {
    r := [];
    var idx := 0;
    while idx < |rows|
      invariant 0 <= idx <= |rows|
      invariant r == RagFallbackList(rows[..idx])
    {
      assert rows[..idx + 1][..idx] == rows[..idx];
      r := r + [RagFallbackEntry(rows[idx], idx)];
      idx := idx + 1;
    }
    assert rows[..idx] == rows;
  }

  /** The fallback over the first five retrieved rows has at most five entries, ranked 1..k,
      scored 75, 77, ... (never above 83), each naming its row's company and title. */
  lemma RagFallbackProperties(similar: seq<Posting>)
    ensures var r := RagFallbackList(PyPrefix(similar, FallbackRows));
      && |r| == Min(5, |similar|)
      && DenseRanks(r)
      && (forall i :: 0 <= i < |r| ==>
            && 75 <= r[i].matchScore <= 83
            && r[i].company == similar[i].companyName && r[i].title == similar[i].title)
      && (forall i, j :: 0 <= i < j < |r| ==> r[i].matchScore < r[j].matchScore)
  {
    var rows := PyPrefix(similar, FallbackRows);
    var r := RagFallbackList(rows);
    forall i | 0 <= i < |r|
      ensures r[i].rank == i + 1 && r[i].matchScore == 75 + 2 * i
      ensures r[i].company == similar[i].companyName && r[i].title == similar[i].title
    {
      assert r[i] == RagFallbackEntry(rows[i], i) && rows[i] == similar[i];
    }
  }

  // ---------------------------------------------------------------- generation

  /** What `generate_recommendations_with_llm` returns for the retrieved rows `similar`. */
  function Generated(similar: seq<Posting>, response: Option<string>,
                     parse: string -> Option<Json>): seq<RecDict>
  {
    match AnswerItems(response, parse)
    case Some(items) => items
    case None => ToDicts(RagFallbackList(PyPrefix(similar, FallbackRows)))
  }

  /** The generation step returns something whenever it had a row to fall back on: a usable
      answer is a non-empty list, and the fallback describes up to five rows. */
  lemma GeneratedNonEmpty(similar: seq<Posting>, response: Option<string>,
                          parse: string -> Option<Json>)
    ensures |Generated(similar, response, parse)| > 0
      <==> AnswerItems(response, parse).Some? || |similar| > 0
  {
  }

  /** `generate_recommendations_with_llm`, with the model's answer given. */
  method GenerateWithLlm(similar: seq<Posting>, response: Option<string>,
                         parse: string -> Option<Json>)
    returns (r: seq<RecDict>)
    ensures r == Generated(similar, response, parse)
  {
    var items := AnswerItems(response, parse);
    if items.Some? {
      return items.value;
    }
    var fallback := RagFallback(PyPrefix(similar, FallbackRows));
    r := ToDicts(fallback);
  }

  // ---------------------------------------------------------------- the whole call

  /** The dictionary `recommend_internships` returns. */
  datatype RagResult = RagResult(
    candidateProfile: string,
    totalAnalyzed: nat,
    recommendations: seq<RecDict>,
    timestamp: string)

  /** The catalogue rows at the given positions, in order. */
  function RowsAt(catalog: seq<Posting>, sel: seq<nat>): (rows: seq<Posting>)
    requires forall i :: 0 <= i < |sel| ==> sel[i] < |catalog|
    ensures |rows| == |sel|
    ensures forall i :: 0 <= i < |sel| ==> rows[i] == catalog[sel[i]]
  {
    seq(|sel|, i requires 0 <= i < |sel| => catalog[sel[i]])
  }

  /** `recommend_internships`: profile, top-15 retrieval, generation, then the first
      `num_recommendations` of what was generated. The similarity step and the clock are
      parameters; a step that raises is seen by the caller (the tiered recommender). */
  method RecommendInternships(resume: Resume, n: int, catalog: seq<Posting>,
                              similarity: string -> seq<real>, response: Option<string>,
                              parse: string -> Option<Json>, now: string)
    returns (result: RagResult)
    requires forall t :: |similarity(t)| == |catalog|
    ensures result.candidateProfile == ProfileText(resume)
    ensures result.totalAnalyzed == |catalog|
    ensures result.timestamp == now
    ensures var sel := TopK(similarity(ProfileText(resume)), RetrievedRows);
      (forall i :: 0 <= i < |sel| ==> sel[i] < |catalog|)
      && result.recommendations == PyPrefix(Generated(RowsAt(catalog, sel), response, parse), n)
  {
    var profile := ProfileText(resume);
    var sims := similarity(profile);
    var sel := TopK(sims, RetrievedRows);
    TopKPositions(sims, RetrievedRows);
    var recs := GenerateWithLlm(RowsAt(catalog, sel), response, parse);
    result := RagResult(profile, |catalog|, PyPrefix(recs, n), now);
  }

  /** The call returns at most `num_recommendations` items, and at most fifteen rows are
      retrieved for the language model. */
  lemma RecommendationsBounded(catalog: seq<Posting>, sims: seq<real>, response: Option<string>,
                               parse: string -> Option<Json>, n: nat)
    requires |sims| == |catalog|
    ensures var sel := TopK(sims, RetrievedRows);
      |sel| <= RetrievedRows
      && (forall i :: 0 <= i < |sel| ==> sel[i] < |catalog|)
      && |PyPrefix(Generated(RowsAt(catalog, sel), response, parse), n)| <= n
  {
    TopKPositions(sims, RetrievedRows);
  }
}
