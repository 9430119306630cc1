/** The decision logic of app.py: loading the catalogue into `internships_data`, reformatting
    the integrated recommender's output, the catalogue filters of the listing endpoint,
    applications (with the user-id to UUID mapping), the review of an application (which
    feeds the learner) and the formatting of the learner's ranking. The database, the
    recommender objects and the clock are parameters. */
module CatalogApp {
  import opened Text
  import opened Records
  import opened Ranking
  import opened KeywordTier
  import FeedbackLearner

  // ---------------------------------------------------------------- loading

  /** The cells of one catalogue row that the record keeps and the endpoints read. The
      display-only cells app.py also copies (area/field, district, benefits, candidates
      already applied, tag, description, qualification, village, ZIP code) are not modelled. */
  datatype Row = Row(
    companyName: string,
    title: string,
    state: string,
    sector: string,
    specialization: string,
    skills: string,
    location: string,
    opportunities: int)

  /** The public identifier of the k-th record. */
  function InternshipIdOf(k: nat): string {
    "PMIS-2025-" + NatToString(k)
  }

  /** The record of a row loaded when `k - 1` records already exist. */
  function MakeRecord(row: Row, k: nat): (r: Internship)
    ensures r.id == k && r.internshipId == InternshipIdOf(k)
    ensures r.company == row.companyName && r.title == row.title
  {
    Internship(k, InternshipIdOf(k), row.companyName, row.title, row.state, row.sector,
               row.specialization, row.skills, row.location, row.opportunities)
  }

  /** The records of the rows, numbered from 1 in row order. */
  function RecordsOf(rows: seq<Row>): (r: seq<Internship>)
    ensures |r| == |rows|
    ensures forall i :: 0 <= i < |rows| ==> r[i] == MakeRecord(rows[i], i + 1)
  {
    seq(|rows|, i requires 0 <= i < |rows| => MakeRecord(rows[i], i + 1))
  }

  lemma RecordsOfSnoc(rows: seq<Row>, row: Row)
    ensures RecordsOf(rows + [row]) == RecordsOf(rows) + [MakeRecord(row, |rows| + 1)]
  {
  }

  /** Both identifiers are unique: the numeric ids run 1..N and the public identifiers
      differ exactly as the numbers do. */
  lemma RecordIdsUnique(rows: seq<Row>)
    ensures var r := RecordsOf(rows);
      && (forall i :: 0 <= i < |r| ==> r[i].id == i + 1)
      && (forall i, j :: 0 <= i < |r| && 0 <= j < |r| && r[i].internshipId == r[j].internshipId ==> i == j)
  {
    var r := RecordsOf(rows);
    forall i, j | 0 <= i < |r| && 0 <= j < |r| && r[i].internshipId == r[j].internshipId
      ensures i == j
    {
      assert NatToString(i + 1) == InternshipIdOf(i + 1)[10..];
      assert NatToString(j + 1) == InternshipIdOf(j + 1)[10..];
      NatToStringInjective(i + 1, j + 1);
    }
  }

  // ---------------------------------------------------------------- reformatting

  /** A recommendation as app.py sends it to the front end. */
  datatype Formatted = Formatted(
    rank: int,
    company: Field,
    title: Field,
    matchScore: Field,
    reasoning: Field,
    skills: Field,
    location: Field,
    sector: Field,
    opportunities: Field)

  /** `d.get(k, default)` on a recommendation dictionary. */
  function GetField(d: RecDict, k: string, default: Field): (f: Field)
    ensures k in d ==> f == d[k]
    ensures k !in d ==> f == default
  {
    if k in d then d[k] else default
  }

  /** The i-th reformatted recommendation: rank i + 1 and each key copied, or its default. */
  function FormatOne(d: RecDict, i: nat): Formatted {
    Formatted(i + 1, GetField(d, "company", FStr("")), GetField(d, "title", FStr("")),
              GetField(d, "match_score", FInt(0)), GetField(d, "reasoning", FStr("")),
              GetField(d, "skills_to_highlight", FList([])), GetField(d, "location", FStr("")),
              GetField(d, "sector", FStr("")), GetField(d, "opportunities_available", FInt(1)))
  }

  function FormatAll(recs: seq<RecDict>): (r: seq<Formatted>)
    ensures |r| == |recs|
    ensures forall i :: 0 <= i < |recs| ==> r[i] == FormatOne(recs[i], i)
  {
    seq(|recs|, i requires 0 <= i < |recs| => FormatOne(recs[i], i))
  }

  /** The reformatting loop. */
  method FormatRecommendations(recs: seq<RecDict>) returns (r: seq<Formatted>)
    ensures r == FormatAll(recs)
  {
    r := [];
    for i := 0 to |recs|
      invariant r == FormatAll(recs[..i])
    {
      r := r + [FormatOne(recs[i], i)];
    }
    assert recs[..|recs|] == recs;
  }

  /** Reformatting a tier's recommendation keeps its company, title, score, reasoning and
      skills in place, renumbers it by position, and fills in the keys the tiers do not
      produce with their defaults. */
  lemma FormatTierRecommendation(rec: Recommendation, i: nat)
    ensures var f := FormatOne(ToDict(rec), i);
      && f.rank == i + 1
      && f.company == FStr(rec.company) && f.title == FStr(rec.title)
      && f.matchScore == FInt(rec.matchScore) && f.reasoning == FStr(rec.reasoning)
      && f.skills == FList(rec.skills)
      && f.location == FStr("") && f.sector == FStr("") && f.opportunities == FInt(1)
  {
  }

  /** `get_recommendations`. `call` is the integrated recommender's call: `None` when there
      is no recommender; `Ok(None)` when the result is empty or has no 'recommendations'
      key; `Ok(Some(recs))` otherwise. */
  method GetRecommendations(call: Option<Attempt<Option<seq<RecDict>>>>) returns (r: seq<Formatted>)
    ensures call.None? || call.value.Raised? || call.value.value.None? ==> r == []
    ensures call.Some? && call.value.Ok? && call.value.value.Some? ==> r == FormatAll(call.value.value.value)
  {
    if call.None? {
      return [];
    }
    if call.value.Raised? || call.value.value.None? {
      return [];
    }
    r := FormatRecommendations(call.value.value.value);
  }

  /** The reformatted list keeps the length of the recommender's list and ranks it 1..n
      whatever ranks the recommender gave. */
  lemma FormatAllRanks(recs: seq<RecDict>)
    ensures var r := FormatAll(recs);
      |r| == |recs| && forall i :: 0 <= i < |r| ==> r[i].rank == i + 1
  {
  }

  // ---------------------------------------------------------------- filters

  /** The query parameters of the listing endpoint; `limit` is already an integer. */
  datatype Query = Query(search: string, state: string, sector: string, specialization: string, limit: int)

  /** A list comprehension with a condition. */
  function Keep(xs: seq<Internship>, p: Internship -> bool): (r: seq<Internship>)
    ensures |r| <= |xs|
    ensures forall x :: x in r ==> x in xs && p(x)
  {
    if xs == [] then [] else (if p(xs[0]) then [xs[0]] else []) + Keep(xs[1..], p)
  }

  predicate SearchHit(x: Internship, term: string) {
    Contains(Lower(x.company), term) || Contains(Lower(x.title), term) || Contains(Lower(x.skills), term)
  }

  /** Whether a record passes every filter the query turns on. */
  predicate Selected(x: Internship, q: Query) {
    && (Lower(q.search) == [] || SearchHit(x, Lower(q.search)))
    && (q.state == [] || x.state == q.state)
    && (q.sector == [] || x.sector == q.sector)
    && (q.specialization == [] || Contains(Lower(x.specialization), Lower(q.specialization)))
  }

  /** The filter chain of `get_internships`: each filter that is turned on narrows the
      previous result, and the limit cuts the last one. */
  function FilterChain(data: seq<Internship>, q: Query): seq<Internship> {
    var term := Lower(q.search);
    var a := if term != [] then Keep(data, (x: Internship) => SearchHit(x, term)) else data;
    var b := if q.state != [] then Keep(a, (x: Internship) => x.state == q.state) else a;
    var c := if q.sector != [] then Keep(b, (x: Internship) => x.sector == q.sector) else b;
    var d := if q.specialization != [] then Keep(c, (x: Internship) => Contains(Lower(x.specialization), Lower(q.specialization))) else c;
    PyPrefix(d, q.limit)
  }

  /** `a` appears in `b` in order, possibly with gaps. */
  predicate IsSubseq(a: seq<Internship>, b: seq<Internship>)
    decreases |b|
  {
    if a == [] then true
    else if b == [] then false
    else (a[0] == b[0] && IsSubseq(a[1..], b[1..])) || IsSubseq(a, b[1..])
  }

  /** A filter keeps a subsequence of its input. */
  lemma {:induction false} KeepIsSubseq(xs: seq<Internship>, p: Internship -> bool)
    ensures IsSubseq(Keep(xs, p), xs)
  {
    if xs != [] {
      KeepIsSubseq(xs[1..], p);
      var rest := Keep(xs[1..], p);
      if p(xs[0]) {
        assert Keep(xs, p) == [xs[0]] + rest;
        assert (Keep(xs, p))[1..] == rest;
      } else {
        assert Keep(xs, p) == rest;
      }
    }
  }

  /** A prefix of a subsequence is a subsequence. */
  lemma {:induction false} SubseqPrefix(a: seq<Internship>, b: seq<Internship>, k: nat)
    requires k <= |a| && IsSubseq(a, b)
    ensures IsSubseq(a[..k], b)
    decreases |b|
  {
    if k > 0 {
      if a[0] == b[0] && IsSubseq(a[1..], b[1..]) {
        SubseqPrefix(a[1..], b[1..], k - 1);
        assert a[..k][1..] == a[1..][..k - 1];
      } else {
        SubseqPrefix(a, b[1..], k);
      }
    }
  }

  /** A filter whose condition holds for the kept elements does not change the result. */
  lemma {:induction false} KeepAll(xs: seq<Internship>, p: Internship -> bool)
    requires forall x :: x in xs ==> p(x)
    ensures Keep(xs, p) == xs
  {
    if xs != [] {
      KeepAll(xs[1..], p);
    }
  }

  /** Two filters in a row are one filter on the conjunction. */
  lemma {:induction false} KeepKeep(xs: seq<Internship>, p: Internship -> bool, r: Internship -> bool,
                                    s: Internship -> bool)
    requires forall x :: x in xs ==> s(x) == (p(x) && r(x))
    ensures Keep(Keep(xs, p), r) == Keep(xs, s)
  {
    if xs != [] {
      var h := xs[0];
      var t := Keep(xs[1..], p);
      KeepKeep(xs[1..], p, r, s);
      if p(h) {
        assert Keep(xs, p) == [h] + t;
        assert ([h] + t)[1..] == t;
        assert Keep([h] + t, r) == (if r(h) then [h] else []) + Keep(t, r);
      } else {
        assert Keep(xs, p) == t;
      }
      assert Keep(xs, s) == (if s(h) then [h] else []) + Keep(xs[1..], s);
    }
  }

  function Step1(q: Query): Internship -> bool {
    (x: Internship) => Lower(q.search) == [] || SearchHit(x, Lower(q.search))
  }

  function Step2(q: Query): Internship -> bool {
    (x: Internship) => Step1(q)(x) && (q.state == [] || x.state == q.state)
  }

  function Step3(q: Query): Internship -> bool {
    (x: Internship) => Step2(q)(x) && (q.sector == [] || x.sector == q.sector)
  }

  /** The chain of filters is one filter on `Selected`, cut by the limit. */
  lemma FilterChainIsConjunction(data: seq<Internship>, q: Query)
    ensures FilterChain(data, q) == PyPrefix(Keep(data, (x: Internship) => Selected(x, q)), q.limit)
  {
    var term := Lower(q.search);
    var a := if term != [] then Keep(data, (x: Internship) => SearchHit(x, term)) else data;
    if term != [] {
      KeepKeep(data, (x: Internship) => true, (x: Internship) => SearchHit(x, term), Step1(q));
      KeepAll(data, (x: Internship) => true);
    } else {
      KeepAll(data, Step1(q));
    }
    assert a == Keep(data, Step1(q));
    var b := if q.state != [] then Keep(a, (x: Internship) => x.state == q.state) else a;
    if q.state != [] {
      KeepKeep(data, Step1(q), (x: Internship) => x.state == q.state, Step2(q));
    } else {
      KeepKeep(data, Step1(q), (x: Internship) => true, Step2(q));
      KeepAll(a, (x: Internship) => true);
    }
    assert b == Keep(data, Step2(q));
    var c := if q.sector != [] then Keep(b, (x: Internship) => x.sector == q.sector) else b;
    if q.sector != [] {
      KeepKeep(data, Step2(q), (x: Internship) => x.sector == q.sector, Step3(q));
    } else {
      KeepKeep(data, Step2(q), (x: Internship) => true, Step3(q));
      KeepAll(b, (x: Internship) => true);
    }
    assert c == Keep(data, Step3(q));
    var spec := (x: Internship) => Contains(Lower(x.specialization), Lower(q.specialization));
    if q.specialization != [] {
      KeepKeep(data, Step3(q), spec, (x: Internship) => Selected(x, q));
    } else {
      KeepKeep(data, Step3(q), (x: Internship) => true, (x: Internship) => Selected(x, q));
      KeepAll(c, (x: Internship) => true);
    }
  }

  /** The listing is a subsequence of the catalogue in catalogue order, every record in it
      passes every filter that is on, a non-negative limit bounds its length, and when the
      limit does not cut, no passing record is missing. */
  lemma FilterChainProperties(data: seq<Internship>, q: Query)
    ensures var r := FilterChain(data, q);
      && IsSubseq(r, data)
      && (forall x :: x in r ==> Selected(x, q))
      && (q.limit >= 0 ==> |r| <= q.limit)
      && (|Keep(data, (x: Internship) => Selected(x, q))| <= q.limit ==> forall x :: x in data && Selected(x, q) ==> x in r)
  {
    FilterChainIsConjunction(data, q);
    var kept := Keep(data, (x: Internship) => Selected(x, q));
    var r := FilterChain(data, q);
    KeepIsSubseq(data, (x: Internship) => Selected(x, q));
    assert r == kept[..|r|];
    SubseqPrefix(kept, data, |r|);
    forall x | x in r
      ensures Selected(x, q)
    {
      assert x in kept;
    }
    if |kept| <= q.limit {
      forall x | x in data && Selected(x, q)
        ensures x in r
      {
        KeepComplete(data, (x: Internship) => Selected(x, q), x);
      }
    }
  }

  lemma {:induction false} KeepComplete(xs: seq<Internship>, p: Internship -> bool, x: Internship)
    requires x in xs && p(x)
    ensures x in Keep(xs, p)
  {
    if xs[0] != x {
      KeepComplete(xs[1..], p, x);
    }
  }

  /** The choices the listing offers: the non-empty states, sectors and specialisations of
      the whole catalogue. */
  datatype Options = Options(states: set<string>, sectors: set<string>, specializations: set<string>)

  function FilterOptions(data: seq<Internship>): (o: Options)
    ensures forall v :: v in o.states <==> v != [] && exists x :: x in data && x.state == v
    ensures forall v :: v in o.sectors <==> v != [] && exists x :: x in data && x.sector == v
    ensures forall v :: v in o.specializations <==> v != [] && exists x :: x in data && x.specialization == v
    ensures "" !in o.states && "" !in o.sectors && "" !in o.specializations
  {
    Options(set x | x in data && x.state != [] :: x.state,
            set x | x in data && x.sector != [] :: x.sector,
            set x | x in data && x.specialization != [] :: x.specialization)
  }

  /** The options offered are taken from the catalogue: each offered state, sector and
      specialisation is that of some record, and every record's non-empty values are
      offered. */
  lemma OptionsFromCatalogue(data: seq<Internship>, s: string)
    ensures s in FilterOptions(data).states <==> s != [] && exists i :: 0 <= i < |data| && data[i].state == s
    ensures s in FilterOptions(data).sectors <==> s != [] && exists i :: 0 <= i < |data| && data[i].sector == s
    ensures s in FilterOptions(data).specializations
            <==> s != [] && exists i :: 0 <= i < |data| && data[i].specialization == s
  {
    var o := FilterOptions(data);
    if s in o.states {
      var x :| x in data && x.state == s;
      var i :| 0 <= i < |data| && data[i] == x;
    }
    if s in o.sectors {
      var x :| x in data && x.sector == s;
      var i :| 0 <= i < |data| && data[i] == x;
    }
    if s in o.specializations {
      var x :| x in data && x.specialization == s;
      var i :| 0 <= i < |data| && data[i] == x;
    }
  }

  // ---------------------------------------------------------------- applications

  const UuidPrefix: string := "550e8400-e29b-41d4-a716-"

  /** The candidate id stored with an application: an integer user id (a `bool` counts, as
      it does for `isinstance(_, int)`) becomes the fixed UUID prefix followed by the number
      zero-padded to 12 digits; any other value is used as `str()` renders it. */
  function CandidateUuid(user: PyValue): string {
    match user
    case PyInt(i) => UuidPrefix + FormatZeroPadded(i, 12)
    case PyBool(b) => UuidPrefix + FormatZeroPadded(if b then 1 else 0, 12)
    case _ => PyStrOf(user)
  }

  /** Below 10^12 an integer id gives a 36-character UUID ending in its 12 digits. */
  lemma UuidShape(i: nat)
    requires i < Pow10(12)
    ensures |CandidateUuid(PyInt(i))| == 36
    ensures StartsWith(CandidateUuid(PyInt(i)), UuidPrefix)
  {
    NatToStringLength(i, 12);
    AppendAffixes(UuidPrefix, FormatZeroPadded(i, 12));
  }

  lemma {:induction false} ParseZeros(k: nat)
    ensures forall j :: 0 <= j < k ==> IsDigit(Repeat('0', k)[j])
    ensures ParseDigits(Repeat('0', k)) == 0
  {
    if k > 0 {
      ParseZeros(k - 1);
      assert Repeat('0', k)[..k - 1] == Repeat('0', k - 1);
    }
  }

  /** Leading zeros do not change the value of a digit string. */
  lemma {:induction false} ParseLeadingZeros(k: nat, s: string)
    requires forall j :: 0 <= j < |s| ==> IsDigit(s[j])
    ensures forall j :: 0 <= j < k + |s| ==> IsDigit((Repeat('0', k) + s)[j])
    ensures ParseDigits(Repeat('0', k) + s) == ParseDigits(s)
    decreases |s|
  {
    ParseZeros(k);
    if s == [] {
      assert Repeat('0', k) + s == Repeat('0', k);
    } else {
      var t := Repeat('0', k) + s;
      assert t[..|t| - 1] == Repeat('0', k) + s[..|s| - 1];
      ParseLeadingZeros(k, s[..|s| - 1]);
    }
  }

  /** Different integer ids below 10^12 get different UUIDs. */
  lemma UuidInjective(i: nat, j: nat)
    requires i < Pow10(12) && j < Pow10(12)
    requires CandidateUuid(PyInt(i)) == CandidateUuid(PyInt(j))
    ensures i == j
  {
    var pi := FormatZeroPadded(i, 12);
    var pj := FormatZeroPadded(j, 12);
    assert pi == CandidateUuid(PyInt(i))[|UuidPrefix|..];
    assert pj == CandidateUuid(PyInt(j))[|UuidPrefix|..];
    var si, sj := NatToString(i), NatToString(j);
    NatToStringLength(i, 12);
    NatToStringLength(j, 12);
    ParseLeadingZeros(12 - |si|, si);
    ParseLeadingZeros(12 - |sj|, sj);
    ParseNatToString(i);
    ParseNatToString(j);
  }

  /** `isinstance(True, int)` holds, so a user id of `true` gets the UUID of the user id 1. */
  lemma TrueCountsAsOne()
    ensures CandidateUuid(PyBool(true)) == CandidateUuid(PyInt(1))
  {
  }

  /** The first record whose public identifier equals the given value. */
  function FindInternship(data: seq<Internship>, id: PyValue): (r: Option<Internship>)
    ensures r.Some? ==> r.value in data && id == PyStr(r.value.internshipId)
    ensures r.Some? ==> exists k :: 0 <= k < |data| && data[k] == r.value
                           && forall j :: 0 <= j < k ==> id != PyStr(data[j].internshipId)
    ensures r.None? ==> forall x :: x in data ==> id != PyStr(x.internshipId)
  {
    if data == [] then None
    else if id == PyStr(data[0].internshipId) then Some(data[0])
    else
      var r := FindInternship(data[1..], id);
      if r.Some? then
        var k :| 0 <= k < |data[1..]| && data[1..][k] == r.value
                 && forall j :: 0 <= j < k ==> id != PyStr(data[1..][j].internshipId);
        assert data[k + 1] == r.value;
        assert forall j :: 0 <= j < k + 1 ==> id != PyStr(data[j].internshipId) by {
          forall j | 0 <= j < k + 1
            ensures id != PyStr(data[j].internshipId)
          {
            if j > 0 {
              assert data[j] == data[1..][j - 1];
            }
          }
        }
        r
      else r
  }

  /** A pending application as `apply_for_internship` stores it. */
  datatype Pending = Pending(candidateId: string, internshipId: string, company: string, title: string)

  /** `apply_for_internship` up to the database call: both ids must be truthy (400), the
      internship must be in the catalogue (404). */
  function Apply(data: Request, internships: seq<Internship>): (r: Response<Pending>)
    ensures r.Failure? && r.status == 400 <==> !Truthy(Lookup(data, "internship_id")) || !Truthy(Lookup(data, "user_id"))
    ensures r.Failure? && r.status == 404 <==>
      && Truthy(Lookup(data, "internship_id")) && Truthy(Lookup(data, "user_id"))
      && forall x :: x in internships ==> PyStr(x.internshipId) != Lookup(data, "internship_id")
    ensures r.Success? <==>
      && Truthy(Lookup(data, "internship_id")) && Truthy(Lookup(data, "user_id"))
      && exists x :: x in internships && PyStr(x.internshipId) == Lookup(data, "internship_id")
    ensures r.Success? ==>
      exists k :: 0 <= k < |internships|
        && PyStr(internships[k].internshipId) == Lookup(data, "internship_id")
        && (forall j :: 0 <= j < k ==> PyStr(internships[j].internshipId) != Lookup(data, "internship_id"))
        && r.body == Pending(CandidateUuid(Lookup(data, "user_id")), internships[k].internshipId,
                             internships[k].company, internships[k].title)
  {
    var iid := Lookup(data, "internship_id");
    var uid := Lookup(data, "user_id");
    if !Truthy(iid) || !Truthy(uid) then Failure(400, "Missing internship_id or user_id")
    else match FindInternship(internships, iid)
      case None => Failure(404, "Internship not found")
      case Some(x) => Success(Pending(CandidateUuid(uid), x.internshipId, x.company, x.title))
  }

  // ---------------------------------------------------------------- review

  const InvalidDecision: string := "Invalid decision. Must be 'accepted' or 'rejected'"

  predicate ValidDecision(decision: PyValue) {
    decision == PyStr("accepted") || decision == PyStr("rejected")
  }

  /** The steps of `review_application`: the decision check, the connection check, the
      status update, the feedback record. `feedbackId` is the created feedback record's id,
      `None` when creating it fails. The body of a success is the message. */
  function ReviewResponse(decision: PyValue, connected: bool, statusUpdated: bool,
                          feedbackId: Option<string>): (r: Response<string>)
    ensures r.Failure? && r.status == 400 <==> !ValidDecision(decision)
    ensures r.Success? <==> ValidDecision(decision) && connected && statusUpdated && feedbackId.Some?
  {
    if !ValidDecision(decision) then Failure(400, InvalidDecision)
    else if !connected then Failure(500, "Database not connected")
    else if !statusUpdated then Failure(500, "Failed to update application status")
    else if feedbackId.None? then Failure(500, "Failed to create feedback")
    else Success("Application " + decision.s + " successfully")
  }

  /** The learner's tables after a review: the feedback is processed only when the review
      gets as far as creating the feedback record, and `process_feedback` then updates the
      tables unless it returns false. */
  function ReviewedTables(w: FeedbackLearner.Weights, decision: PyValue, connected: bool, statusUpdated: bool,
                          feedbackId: Option<string>, score: PyValue, skillGaps: seq<string>,
                          strengths: seq<string>, application: Option<Internship>): FeedbackLearner.Weights
  {
    if ReviewResponse(decision, connected, statusUpdated, feedbackId).Success?
       && application.Some? && FeedbackLearner.NumericScore(score).Some?
    then FeedbackLearner.UpdatedWeights(w, application.value,
                                        FeedbackLearner.Reward(decision.s, FeedbackLearner.NumericScore(score).value),
                                        skillGaps, strengths)
    else w
  }

  /** `review_application`. `score` is the request's `recommendation_score` (`None` when
      absent), passed on to the learner as it is. */
  method ReviewApplication(learner: FeedbackLearner.LearningModel, decision: PyValue, connected: bool,
                           statusUpdated: bool, feedbackId: Option<string>, score: PyValue,
                           skillGaps: seq<string>, strengths: seq<string>, application: Option<Internship>)
    returns (r: Response<string>)
    modifies learner
    ensures r == ReviewResponse(decision, connected, statusUpdated, feedbackId)
    ensures learner.Tables() == ReviewedTables(old(learner.Tables()), decision, connected, statusUpdated,
                                               feedbackId, score, skillGaps, strengths, application)
  {
    if !ValidDecision(decision) {
      return Failure(400, InvalidDecision);
    }
    if !connected {
      return Failure(500, "Database not connected");
    }
    if !statusUpdated {
      return Failure(500, "Failed to update application status");
    }
    if feedbackId.None? {
      return Failure(500, "Failed to create feedback");
    }
    var _ := learner.ProcessFeedback(decision.s, score, skillGaps, strengths, application);
    r := Success("Application " + decision.s + " successfully");
  }

  /** An invalid decision is answered with 400 before anything else happens: neither the
      database outcome nor the feedback matters, and the learner is left alone. */
  lemma InvalidDecisionChangesNothing(w: FeedbackLearner.Weights, decision: PyValue,
                                     c1: bool, s1: bool, f1: Option<string>,
                                     c2: bool, s2: bool, f2: Option<string>,
                                     score: PyValue, skillGaps: seq<string>, strengths: seq<string>,
                                     application: Option<Internship>)
    requires !ValidDecision(decision)
    ensures ReviewResponse(decision, c1, s1, f1) == ReviewResponse(decision, c2, s2, f2)
    ensures ReviewedTables(w, decision, c1, s1, f1, score, skillGaps, strengths, application) == w
  {
  }

  /** As written, a review sent without a score still succeeds but teaches the learner
      nothing: the request's missing score reaches the learner as `None`, so the learner's
      default of 5 never applies and the division raises. */
  lemma AsWrittenReviewWithoutScoreLearnsNothing(w: FeedbackLearner.Weights, decision: PyValue, feedbackId: string,
                                                 skillGaps: seq<string>, strengths: seq<string>,
                                                 application: Internship)
    requires ValidDecision(decision)
    ensures ReviewResponse(decision, true, true, Some(feedbackId)).Success?
    ensures ReviewedTables(w, decision, true, true, Some(feedbackId), PyNone, skillGaps, strengths, Some(application)) == w
  {
  }

  /** The request's score with the learner's default applied when it is absent. */
  function ScoreOrDefault(score: PyValue): (r: PyValue)
    ensures score.PyNone? ==> r == PyInt(5)
    ensures !score.PyNone? ==> r == score
  {
    if score.PyNone? then PyInt(5) else score
  }

  /** With the default applied, every successful review of a stored application whose score
      is a number or absent updates the learner, an absent score counting as 5. */
  lemma CorrectedReviewLearns(w: FeedbackLearner.Weights, decision: PyValue, feedbackId: string, score: PyValue,
                              skillGaps: seq<string>, strengths: seq<string>, application: Internship)
    requires ValidDecision(decision)
    requires score.PyNone? || score.PyInt?
    ensures var s := if score.PyInt? then score.i else 5;
      ReviewedTables(w, decision, true, true, Some(feedbackId), ScoreOrDefault(score), skillGaps, strengths, Some(application))
      == FeedbackLearner.UpdatedWeights(w, application, FeedbackLearner.Reward(decision.s, s), skillGaps, strengths)
  {
  }

  // ---------------------------------------------------------------- improved recommendations

  /** A recommendation of the learner as app.py formats it. */
  datatype Improved = Improved(rank: int, company: string, title: string, matchScore: int,
                               skillsToHighlight: seq<string>,
                               location: string, sector: string, opportunities: int)

  /** Entry `i` of the learned ranking. Its highlighted skills are `learning_insights`'
      'strengths_to_highlight', defaulting to `[]`; the insights the learner attaches carry
      only 'learning_applied', 'skill_alignment', 'improvement_areas_addressed' and
      'confidence_level' (reinforcement_learning.py:347-352), so the list is always empty. */
  function FormatImproved(s: FeedbackLearner.ScoredInternship, i: nat): (r: Improved)
    requires 0.0 <= s.improvedScore <= 1.0
    ensures r.rank == i + 1 && 0 <= r.matchScore <= 100
    ensures r.skillsToHighlight == []
    ensures r.company == s.internship.company && r.title == s.internship.title
  {
    Improved(i + 1, s.internship.company, s.internship.title, FeedbackLearner.ImprovedMatchScore(s.improvedScore),
             [], s.internship.location, s.internship.sector, s.internship.opportunities)
  }

  predicate ScoresInRange(r: seq<FeedbackLearner.ScoredInternship>) {
    forall k :: 0 <= k < |r| ==> 0.0 <= r[k].improvedScore <= 1.0
  }

  function FormatImprovedAll(r: seq<FeedbackLearner.ScoredInternship>): (out: seq<Improved>)
    requires ScoresInRange(r)
    ensures |out| == |r|
    ensures forall k :: 0 <= k < |r| ==> out[k] == FormatImproved(r[k], k)
  {
    seq(|r|, k requires 0 <= k < |r| => FormatImproved(r[k], k))
  }

  /** The formatting loop of `get_improved_recommendations`. */
  method FormatImprovedRecommendations(r: seq<FeedbackLearner.ScoredInternship>) returns (out: seq<Improved>)
    requires ScoresInRange(r)
    ensures out == FormatImprovedAll(r)
  {
    out := [];
    for i := 0 to |r|
      invariant out == FormatImprovedAll(r[..i])
    {
      out := out + [FormatImproved(r[i], i)];
    }
    assert r[..|r|] == r;
  }

  lemma FloorMonotone(a: real, b: real)
    requires a <= b
    ensures a.Floor <= b.Floor
  {
  }

  /** The learner's ranking, formatted, is ranked 1..n with percentages in [0, 100] that
      never increase down the list, each the truncated percentage of the entry's score. */
  lemma FormatImprovedProperties(r: seq<FeedbackLearner.ScoredInternship>)
    requires ScoresInRange(r)
    requires SortedDesc(r, FeedbackLearner.ScoreKey)
    ensures var out := FormatImprovedAll(r);
      && (forall k :: 0 <= k < |out| ==> out[k].rank == k + 1 && 0 <= out[k].matchScore <= 100)
      && (forall k :: 0 <= k < |out| ==>
            out[k].matchScore as real <= r[k].improvedScore * 100.0 < out[k].matchScore as real + 1.0)
      && (forall j, k :: 0 <= j < k < |out| ==> out[j].matchScore >= out[k].matchScore)
  {
    var out := FormatImprovedAll(r);
    forall j, k | 0 <= j < k < |out|
      ensures out[j].matchScore >= out[k].matchScore
    {
      assert r[j].improvedScore >= r[k].improvedScore;
      FloorMonotone(r[k].improvedScore * 100.0, r[j].improvedScore * 100.0);
    }
  }

  /** The learner's top five carry improved scores in [0,1]. */
  lemma LearnedScoresInRange(w: FeedbackLearner.Weights, skills: string, data: seq<Internship>)
    ensures |FeedbackLearner.TopImproved(w, skills, data, 5)| <= 5
    ensures ScoresInRange(FeedbackLearner.TopImproved(w, skills, data, 5))
  {
    FeedbackLearner.TopImprovedEntries(w, skills, data, 5);
  }

  /** Formatting numbers the entries from 1 and keeps every percentage in [0,100]. */
  lemma FormattedRanks(r: seq<FeedbackLearner.ScoredInternship>)
    requires ScoresInRange(r)
    ensures forall k :: 0 <= k < |r| ==>
      FormatImprovedAll(r)[k].rank == k + 1 && 0 <= FormatImprovedAll(r)[k].matchScore <= 100
  {
  }

  /** The answer of the improved-recommendations endpoint: the learner's formatted ranking,
      or, when it is empty, the integrated recommender's reformatted list. */
  datatype ImprovedAnswer = Learned(recs: seq<Improved>, totalAnalyzed: nat) | Fallback(fallback: seq<Formatted>)

  // ---------------------------------------------------------------- the application

  /** The application's catalogue: `internships_data`, replaced by each load. */
  class CatalogApp {
    var internshipsData: seq<Internship>

    constructor ()
      ensures internshipsData == []
    {
      internshipsData := [];
    }

    /** `load_internships_from_csv`: a failed read returns false and leaves the catalogue as
        it was; otherwise the catalogue becomes the rows' records, numbered from 1. */
    method LoadInternshipsFromCsv(read: Attempt<seq<Row>>) returns (ok: bool)
      modifies this
      ensures ok <==> read.Ok?
      ensures internshipsData == if read.Ok? then RecordsOf(read.value) else old(internshipsData)
    {
      if read.Raised? {
        return false;
      }
      var rows := read.value;
      internshipsData := [];
      for k := 0 to |rows|
        invariant internshipsData == RecordsOf(rows[..k])
      {
        assert rows[..k + 1] == rows[..k] + [rows[k]];
        RecordsOfSnoc(rows[..k], rows[k]);
        internshipsData := internshipsData + [MakeRecord(rows[k], |internshipsData| + 1)];
      }
      assert rows[..|rows|] == rows;
      return true;
    }

    /** `get_internships`: the filtered listing and the filter options of the whole
        catalogue. */
    function GetInternships(q: Query): (r: (seq<Internship>, Options))
      reads this
      ensures IsSubseq(r.0, internshipsData)
      ensures forall x :: x in r.0 ==> Selected(x, q)
      ensures q.limit >= 0 ==> |r.0| <= q.limit
      ensures |Keep(internshipsData, (x: Internship) => Selected(x, q))| <= q.limit ==>
                forall x :: x in internshipsData && Selected(x, q) ==> x in r.0
      ensures r.0 == PyPrefix(Keep(internshipsData, (x: Internship) => Selected(x, q)), q.limit)
      ensures r.1 == FilterOptions(internshipsData)
    {
      FilterChainProperties(internshipsData, q);
      FilterChainIsConjunction(internshipsData, q);
      (FilterChain(internshipsData, q), FilterOptions(internshipsData))
    }

    /** `get_improved_recommendations` after the request check: the learner ranks the
        catalogue; an empty ranking falls back to `get_recommendations`. */
    method ImprovedRecommendations(learner: FeedbackLearner.LearningModel, profile: Resume,
                                   insights: Attempt<FeedbackLearner.Insights>,
                                   call: Option<Attempt<Option<seq<RecDict>>>>)
      returns (a: ImprovedAnswer)
      ensures Get(profile, "candidate_id", "") == "" || insights.Raised?
              || FeedbackLearner.TopImproved(learner.Tables(), Get(profile, "skills", ""), internshipsData, 5) == [] ==>
                a == Fallback(if call.Some? && call.value.Ok? && call.value.value.Some?
                              then FormatAll(call.value.value.value) else [])
      ensures Get(profile, "candidate_id", "") != "" && insights.Ok?
              && FeedbackLearner.TopImproved(learner.Tables(), Get(profile, "skills", ""), internshipsData, 5) != [] ==>
                && ScoresInRange(FeedbackLearner.TopImproved(learner.Tables(), Get(profile, "skills", ""), internshipsData, 5))
                && a == Learned(FormatImprovedAll(FeedbackLearner.TopImproved(learner.Tables(), Get(profile, "skills", ""), internshipsData, 5)),
                                |internshipsData|)
                && |a.recs| <= 5
                && forall k :: 0 <= k < |a.recs| ==> a.recs[k].rank == k + 1 && 0 <= a.recs[k].matchScore <= 100
    {
      var ranked := learner.GetImprovedRecommendations(profile, internshipsData, insights, 5);
      if ranked == [] {
        var fallback := GetRecommendations(call);
        return Fallback(fallback);
      }
      LearnedScoresInRange(learner.Tables(), Get(profile, "skills", ""), internshipsData);
      var formatted := FormatImprovedRecommendations(ranked);
      FormattedRanks(ranked);
      a := Learned(formatted, |internshipsData|);
    }
  }
}
