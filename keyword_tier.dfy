/** The keyword-matching recommender that app_simple.py runs as its only recommender and
    app_with_rag.py runs as its last tier (the two copies are identical), together with the
    request checks the two applications share: the required candidate fields and the
    application id. Request bodies are dictionaries of JSON values. */
module KeywordTier {
  import opened Text
  import opened Records
  import Integrated

  /** A JSON request body. */
  type Request = map<string, PyValue>

  /** `data.get(k)`: `None` for an absent key. */
  function Lookup(req: Request, k: string): PyValue {
    if k in req then req[k] else PyNone
  }

  // ---------------------------------------------------------------- keyword score

  const TechWords: seq<string> := ["tech", "engineering", "software", "data", "ai", "ml"]
  const LanguageWords: seq<string> := ["python", "java", "javascript", "react", "node"]
  const DataWords: seq<string> := ["data", "analysis", "machine learning", "ai"]

  /** `any(w in text for w in words)`, where `in` is substring search. */
  predicate AnyIn(text: string, words: seq<string>) {
    words != [] && (Contains(text, words[0]) || AnyIn(text, words[1..]))
  }

  /** The additive score of one row: 30 when the lower-cased area/field mentions a technical
      word, 40 when the lower-cased candidate skills mention a language, 30 when they
      mention a data word. */
  function KeywordScore(area: string, skills: string): (s: nat)
    ensures s <= 100
    ensures s == 0 <==> !AnyIn(area, TechWords) && !AnyIn(skills, LanguageWords) && !AnyIn(skills, DataWords)
  {
    (if AnyIn(area, TechWords) then 30 else 0)
      + (if AnyIn(skills, LanguageWords) then 40 else 0)
      + (if AnyIn(skills, DataWords) then 30 else 0)
  }

  /** The score a row gets, `min(match_score, 95)`, with the row's area/field cell
      lower-cased. */
  function RowScore(row: Posting, skills: string): (s: int)
    ensures s == Min(KeywordScore(Lower(row.areaField), skills), 95)
    ensures s in {0, 30, 40, 60, 70, 95}
  {
    Min(KeywordScore(Lower(row.areaField), skills), 95)
  }

  /** A row is listed when its score is positive. */
  predicate Listed(row: Posting, skills: string) {
    KeywordScore(Lower(row.areaField), skills) > 0
  }

  /** Both skill triggers look only at the candidate, so a candidate who names a language
      or a data word lists every row. */
  lemma CandidateKeywordListsEveryRow(row: Posting, skills: string)
    requires AnyIn(skills, LanguageWords) || AnyIn(skills, DataWords)
    ensures Listed(row, skills)
    ensures RowScore(row, skills) >= 30
  {
  }

  // ---------------------------------------------------------------- skill pieces

  /** `[p for p in skills.split(',') if p.strip()]`: the pieces keep their own spaces. */
  function NonBlank(pieces: seq<string>): (r: seq<string>)
    ensures |r| <= |pieces|
    ensures forall i :: 0 <= i < |r| ==> Strip(r[i]) != [] && r[i] in pieces
    ensures forall p :: p in pieces && Strip(p) != [] ==> p in r
  {
    if pieces == [] then []
    else
      var rest := NonBlank(pieces[1..]);
      assert forall p :: p in pieces ==> p == pieces[0] || p in pieces[1..];
      if Strip(pieces[0]) != [] then [pieces[0]] + rest else rest
  }

  function SkillPieces(skills: string): seq<string> {
    NonBlank(Split(skills, ","))
  }

  // ---------------------------------------------------------------- the matching loop

  /** The rows that get listed, in catalogue order. */
  function ListedRows(rows: seq<Posting>, skills: string): (r: seq<Posting>)
    ensures |r| <= |rows|
    ensures forall x :: x in r ==> x in rows && Listed(x, skills)
  {
    if rows == [] then []
    else
      var init := ListedRows(rows[..|rows| - 1], skills);
      var last := rows[|rows| - 1];
      if Listed(last, skills) then init + [last] else init
  }

  /** The rows listed from a prefix of the catalogue are a prefix of the rows listed from
      the whole catalogue. */
  lemma {:induction false} ListedRowsPrefix(rows: seq<Posting>, k: nat, skills: string)
    requires k <= |rows|
    ensures ListedRows(rows[..k], skills) <= ListedRows(rows, skills)
    decreases |rows|
  {
    if k < |rows| {
      ListedRowsPrefix(rows[..|rows| - 1], k, skills);
      assert rows[..|rows| - 1][..k] == rows[..k];
    } else {
      assert rows[..k] == rows;
    }
  }

  /** Every listable row is listed. */
  lemma {:induction false} ListedRowsComplete(rows: seq<Posting>, skills: string, x: Posting)
    requires x in rows && Listed(x, skills)
    ensures x in ListedRows(rows, skills)
  {
    var init := rows[..|rows| - 1];
    if x != rows[|rows| - 1] {
      assert rows == init + [rows[|rows| - 1]];
      ListedRowsComplete(init, skills, x);
    }
  }

  /** When a candidate names a language or data word, every row is listed. */
  lemma {:induction false} ListedRowsAll(rows: seq<Posting>, skills: string)
    requires AnyIn(skills, LanguageWords) || AnyIn(skills, DataWords)
    ensures ListedRows(rows, skills) == rows
  {
    if rows != [] {
      ListedRowsAll(rows[..|rows| - 1], skills);
      CandidateKeywordListsEveryRow(rows[|rows| - 1], skills);
      assert rows[..|rows| - 1] + [rows[|rows| - 1]] == rows;
    }
  }

  /** One listed row at position `idx`; `skillsText` is the candidate's skills as sent. */
  function KeywordEntry(row: Posting, idx: nat, skills: string, skillsText: string): (r: Recommendation)
    ensures r.rank == idx + 1
    ensures r.company == row.companyColumn.GetOr("") && r.title == row.title
    ensures r.matchScore == RowScore(row, skills)
  {
    Recommendation(idx + 1, row.companyColumn.GetOr(""), row.title, RowScore(row, skills),
                   "Matches your skills in " + skillsText, SkillPieces(skills))
  }

  function Entries(rows: seq<Posting>, skills: string, skillsText: string): (r: seq<Recommendation>)
    ensures |r| == |rows|
    ensures forall i :: 0 <= i < |rows| ==> r[i] == KeywordEntry(rows[i], i, skills, skillsText)
  {
    seq(|rows|, i requires 0 <= i < |rows| => KeywordEntry(rows[i], i, skills, skillsText))
  }

  /** What the matching loop returns: the first five listed rows. */
  function KeywordList(catalog: seq<Posting>, skillsText: string): seq<Recommendation> {
    var skills := Lower(skillsText);
    Entries(PyPrefix(ListedRows(catalog, skills), 5), skills, skillsText)
  }

  lemma ListedRowsSnoc(rows: seq<Posting>, x: Posting, skills: string)
    ensures ListedRows(rows + [x], skills) ==
      if Listed(x, skills) then ListedRows(rows, skills) + [x] else ListedRows(rows, skills)
  {
    assert (rows + [x])[..|rows|] == rows;
  }

  lemma EntriesSnoc(rows: seq<Posting>, x: Posting, skills: string, skillsText: string)
    ensures Entries(rows + [x], skills, skillsText) ==
      Entries(rows, skills, skillsText) + [KeywordEntry(x, |rows|, skills, skillsText)]
  {
  }

  /** Once five rows of a prefix are listed, they are the first five listed rows. */
  lemma KeywordListEarly(catalog: seq<Posting>, i: nat, skillsText: string)
    requires i <= |catalog| && |ListedRows(catalog[..i], Lower(skillsText))| == 5
    ensures KeywordList(catalog, skillsText)
         == Entries(ListedRows(catalog[..i], Lower(skillsText)), Lower(skillsText), skillsText)
  {
    ListedRowsPrefix(catalog, i, Lower(skillsText));
  }

  /** With fewer than six rows listed in the whole catalogue, all of them are returned. */
  lemma KeywordListShort(catalog: seq<Posting>, skillsText: string)
    requires |ListedRows(catalog, Lower(skillsText))| <= 5
    ensures KeywordList(catalog, skillsText)
         == Entries(ListedRows(catalog, Lower(skillsText)), Lower(skillsText), skillsText)
  {
  }

  /** One step of the matching loop over the listing: row `i` extends it exactly when it
      is listable. */
  lemma ListingStep(catalog: seq<Posting>, i: nat, skills: string)
    requires i < |catalog|
    ensures ListedRows(catalog[..i + 1], skills)
         == if Listed(catalog[i], skills) then ListedRows(catalog[..i], skills) + [catalog[i]]
            else ListedRows(catalog[..i], skills)
  {
    assert catalog[..i + 1] == catalog[..i] + [catalog[i]];
    ListedRowsSnoc(catalog[..i], catalog[i], skills);
  }

  /** One step of the matching loop over the list: the entry built for a newly listed row
      extends the list of entries. */
  lemma EntryStep(listed: seq<Posting>, row: Posting, skillsText: string, recs: seq<Recommendation>)
    requires recs == Entries(listed, Lower(skillsText), skillsText)
    ensures var skills := Lower(skillsText);
      recs + [Recommendation(|recs| + 1, row.companyColumn.GetOr(""), row.title,
                             Min(KeywordScore(Lower(row.areaField), skills), 95),
                             "Matches your skills in " + skillsText, SkillPieces(skills))]
      == Entries(listed + [row], skills, skillsText)
  {
    var skills := Lower(skillsText);
    EntriesSnoc(listed, row, skills, skillsText);
    LoopEntry(row, |recs|, skills, skillsText);
  }

  /** The entry the loop builds inline is the row's keyword entry. */
  lemma LoopEntry(row: Posting, idx: nat, skills: string, skillsText: string)
    ensures Recommendation(idx + 1, row.companyColumn.GetOr(""), row.title,
                           Min(KeywordScore(Lower(row.areaField), skills), 95),
                           "Matches your skills in " + skillsText, SkillPieces(skills))
         == KeywordEntry(row, idx, skills, skillsText)
  {
  }

  /** The matching loop: walk the catalogue, stop once five rows are listed, and list each
      row whose keyword score is positive, ranked by its position in the list. */
  method MatchKeywords(catalog: seq<Posting>, skillsText: string) returns (recs: seq<Recommendation>)
    ensures recs == KeywordList(catalog, skillsText)
  {
    var skills := Lower(skillsText);
    recs := [];
    ghost var listed: seq<Posting> := [];
    var i := 0;
    while i < |catalog|
      invariant 0 <= i <= |catalog|
      invariant listed == ListedRows(catalog[..i], skills)
      invariant recs == Entries(listed, skills, skillsText) && |recs| <= 5
    {
      if |recs| >= 5 {
        KeywordListEarly(catalog, i, skillsText);
        return;
      }
      var row := catalog[i];
      var score := KeywordScore(Lower(row.areaField), skills);
      ListingStep(catalog, i, skills);
      if score > 0 {
        EntryStep(listed, row, skillsText, recs);
        recs := recs + [Recommendation(|recs| + 1, row.companyColumn.GetOr(""), row.title,
                                       Min(score, 95), "Matches your skills in " + skillsText,
                                       SkillPieces(skills))];
        listed := listed + [row];
      }
      i := i + 1;
    }
    assert catalog[..i] == catalog;
    KeywordListShort(catalog, skillsText);
  }

  /** The keyword list has at most five entries, ranked 1..k, each scored 30, 40, 60, 70 or
      95 and describing a listed row, in catalogue order; when fewer than five come out,
      every listable row is among them. */
  lemma KeywordListProperties(catalog: seq<Posting>, skillsText: string)
    ensures var r := KeywordList(catalog, skillsText);
      && |r| <= 5
      && DenseRanks(r)
      && (forall i :: 0 <= i < |r| ==> r[i].matchScore in {30, 40, 60, 70, 95})
      && (forall i :: 0 <= i < |r| ==> r[i].skills == SkillPieces(Lower(skillsText)))
      && (|r| < 5 ==> forall x :: x in catalog && Listed(x, Lower(skillsText)) ==>
            exists i :: 0 <= i < |r| && r[i] == KeywordEntry(x, i, Lower(skillsText), skillsText))
  {
    var skills := Lower(skillsText);
    var listed := ListedRows(catalog, skills);
    var r := KeywordList(catalog, skillsText);
    forall i | 0 <= i < |r|
      ensures r[i].matchScore in {30, 40, 60, 70, 95}
    {
      assert listed[i] in listed;
    }
    if |r| < 5 {
      forall x | x in catalog && Listed(x, skills)
        ensures exists i :: 0 <= i < |r| && r[i] == KeywordEntry(x, i, skills, skillsText)
      {
        ListedRowsComplete(catalog, skills, x);
        var i :| 0 <= i < |listed| && listed[i] == x;
        assert r[i] == KeywordEntry(x, i, skills, skillsText);
      }
    }
  }

  /** A candidate naming a language or a data word gets the first five catalogue rows, in
      catalogue order. */
  lemma KeywordListFirstRows(catalog: seq<Posting>, skillsText: string)
    requires AnyIn(Lower(skillsText), LanguageWords) || AnyIn(Lower(skillsText), DataWords)
    ensures var r := KeywordList(catalog, skillsText);
      && |r| == Min(5, |catalog|)
      && forall i :: 0 <= i < |r| ==> r[i].title == catalog[i].title
  {
    ListedRowsAll(catalog, Lower(skillsText));
  }

  // ---------------------------------------------------------------- request checks

  /** The first required field whose value is missing or falsy, in the order name,
      education, skills. */
  function MissingField(req: Request): (r: Option<string>)
    ensures r.None? <==>
      Truthy(Lookup(req, "name")) && Truthy(Lookup(req, "education")) && Truthy(Lookup(req, "skills"))
    ensures r.Some? ==> r.value in {"name", "education", "skills"} && !Truthy(Lookup(req, r.value))
  {
    if !Truthy(Lookup(req, "name")) then Some("name")
    else if !Truthy(Lookup(req, "education")) then Some("education")
    else if !Truthy(Lookup(req, "skills")) then Some("skills")
    else None
  }

  const RequiredFields: seq<string> := ["name", "education", "skills"]

  /** The validation loop over the required fields, stopping at the first one missing. */
  method CheckRequired(req: Request) returns (missing: Option<string>)
    ensures missing == MissingField(req)
  {
    for k := 0 to |RequiredFields|
      invariant forall j :: 0 <= j < k ==> Truthy(Lookup(req, RequiredFields[j]))
    {
      if !Truthy(Lookup(req, RequiredFields[k])) {
        assert k == 0 || Truthy(Lookup(req, RequiredFields[0]));
        assert k == 2 ==> Truthy(Lookup(req, RequiredFields[1]));
        return Some(RequiredFields[k]);
      }
    }
    assert Truthy(Lookup(req, RequiredFields[0])) && Truthy(Lookup(req, RequiredFields[1]));
    assert Truthy(Lookup(req, RequiredFields[2]));
    return None;
  }

  /** The outcome of a request handler: a response body, or an HTTP status with an error
      message. */
  datatype Response<T> = Success(body: T) | Failure(status: nat, error: string)

  function MissingFieldError<T>(field: string): Response<T> {
    Failure(400, "Missing required field: " + field)
  }

  /** Python's name for the type of a JSON value. */
  function TypeName(v: PyValue): string {
    match v
    case PyNone => "NoneType"
    case PyBool(_) => "bool"
    case PyInt(_) => "int"
    case PyStr(_) => "str"
  }

  /** `candidate_data.get('skills', '').lower()`: raises unless the value is a string. */
  function LoweredSkills(req: Request): (r: Attempt<string>)
    ensures r.Ok? <==> (Lookup(req, "skills").PyStr? || "skills" !in req)
  {
    if "skills" !in req then Ok("")
    else match req["skills"]
      case PyStr(s) => Ok(Lower(s))
      case v => Raised("'" + TypeName(v) + "' object has no attribute 'lower'")
  }

  /** The short profile line of the keyword tier, each value as `str()` renders it. */
  function ShortProfile(req: Request): string {
    "Name: " + PyStrOf(Lookup(req, "name")) + ", Education: " + PyStrOf(Lookup(req, "education"))
    + ", Skills: " + PyStrOf(Lookup(req, "skills"))
  }

  /** The recommendation handler of the keyword tier after the request is read: the
      required fields are checked first (status 400), then the skills are lower-cased (a
      non-string value raises, status 500), then the matching loop runs over `catalog`.
      `tag` is the `method` field the application reports, `now` the clock reading. */
  function KeywordResponse(req: Request, catalog: seq<Posting>, tag: string, now: string)
    : Response<Integrated.TierResult>
  {
    var missing := MissingField(req);
    if missing.Some? then MissingFieldError(missing.value)
    else match LoweredSkills(req)
      case Raised(msg) => Failure(500, msg)
      case Ok(_) =>
        Success(Integrated.TierResult(ShortProfile(req), |catalog|,
                                      ToDicts(KeywordList(catalog, Lookup(req, "skills").s)), tag, true, now))
  }

  /** The handler answers 400 exactly when a required field is missing or falsy, 500
      exactly when the fields are present but the skills are not a string, and otherwise
      reports every catalogue row as analysed and at most five recommendations, ranked
      1..k and scored 30, 40, 60, 70 or 95, flagged as a fallback. */
  lemma KeywordResponseCases(req: Request, catalog: seq<Posting>, tag: string, now: string)
    ensures var r := KeywordResponse(req, catalog, tag, now);
      && (r.Failure? && r.status == 400 <==> MissingField(req).Some?)
      && (r.Failure? && r.status == 500 <==> MissingField(req).None? && !Lookup(req, "skills").PyStr?)
      && (r.Success? ==>
            && Lookup(req, "skills").PyStr?
            && r.body.totalAnalyzed == |catalog| && r.body.methodTag == tag && r.body.fallbackUsed
            && |r.body.recommendations| <= 5
            && (forall i :: 0 <= i < |r.body.recommendations| ==>
                  r.body.recommendations[i]["rank"] == FInt(i + 1)
                  && r.body.recommendations[i]["match_score"] in {FInt(30), FInt(40), FInt(60), FInt(70), FInt(95)}))
  {
    if MissingField(req).None? && Lookup(req, "skills").PyStr? {
      KeywordDicts(catalog, Lookup(req, "skills").s);
    }
  }

  /** The recommendations as dictionaries: at most five, ranked 1..k, each scored 30, 40,
      60, 70 or 95. */
  lemma KeywordDicts(catalog: seq<Posting>, skillsText: string)
    ensures |ToDicts(KeywordList(catalog, skillsText))| <= 5
    ensures forall i :: 0 <= i < |ToDicts(KeywordList(catalog, skillsText))| ==>
      ToDicts(KeywordList(catalog, skillsText))[i]["rank"] == FInt(i + 1)
      && ToDicts(KeywordList(catalog, skillsText))[i]["match_score"] in {FInt(30), FInt(40), FInt(60), FInt(70), FInt(95)}
  {
    KeywordListProperties(catalog, skillsText);
    var recs := KeywordList(catalog, skillsText);
    forall i | 0 <= i < |recs|
      ensures ToDict(recs[i])["match_score"] in {FInt(30), FInt(40), FInt(60), FInt(70), FInt(95)}
    {
      assert recs[i].matchScore in {30, 40, 60, 70, 95};
    }
  }

  // ---------------------------------------------------------------- application id

  /** The body of a successful application. */
  datatype Application = Application(message: string, applicationId: string)

  /** `apply_internship`: both ids must be truthy; the application id is
      `APP-{internship_id}-{user_id}`. */
  function ApplyInternship(data: Request): (r: Response<Application>)
    ensures r.Failure? <==> !Truthy(Lookup(data, "internship_id")) || !Truthy(Lookup(data, "user_id"))
    ensures r.Failure? ==> r.status == 400 && r.error == "Missing internship_id or user_id"
    ensures r.Success? ==>
      StartsWith(r.body.applicationId, "APP-")
      && EndsWith(r.body.applicationId, "-" + PyStrOf(Lookup(data, "user_id")))
  {
    var iid := Lookup(data, "internship_id");
    var uid := Lookup(data, "user_id");
    if !Truthy(iid) || !Truthy(uid) then Failure(400, "Missing internship_id or user_id")
    else
      var id := "APP-" + PyStrOf(iid) + "-" + PyStrOf(uid);
      assert id == "APP-" + (PyStrOf(iid) + "-" + PyStrOf(uid));
      AppendAffixes("APP-", PyStrOf(iid) + "-" + PyStrOf(uid));
      assert id == ("APP-" + PyStrOf(iid)) + ("-" + PyStrOf(uid));
      AppendAffixes("APP-" + PyStrOf(iid), "-" + PyStrOf(uid));
      Success(Application("Application submitted for internship " + PyStrOf(iid), id))
  }

  predicate AllDigits(s: string) {
    forall i :: 0 <= i < |s| ==> IsDigit(s[i])
  }

  /** Two ids `x + "-" + y` and `u + "-" + v` built around digit strings `x` and `u` agree
      only when their parts agree: the first dash ends the digits. */
  lemma DashSplit(x: string, y: string, u: string, v: string)
    requires AllDigits(x) && AllDigits(u)
    requires x + "-" + y == u + "-" + v
    ensures x == u && y == v
  {
    var a := x + "-" + y;
    var b := u + "-" + v;
    assert forall j :: 0 <= j < |x| ==> a[j] == x[j] && IsDigit(a[j]);
    assert forall j :: 0 <= j < |u| ==> b[j] == u[j] && IsDigit(b[j]);
    assert a[|x|] == '-' && b[|u|] == '-';
    assert |x| == |u|;
    assert x == a[..|x|] && u == b[..|u|];
    assert y == a[|x| + 1..] && v == b[|u| + 1..];
  }

  /** The request carrying two integer ids. */
  function IdRequest(i: nat, u: nat): Request {
    map["internship_id" := PyInt(i), "user_id" := PyInt(u)]
  }

  /** For positive integer ids the application succeeds with the id built from their
      decimal strings. */
  lemma IdRequestAnswer(i: nat, u: nat)
    requires i > 0 && u > 0
    ensures ApplyInternship(IdRequest(i, u)).Success?
    ensures ApplyInternship(IdRequest(i, u)).body.applicationId
         == "APP-" + NatToString(i) + "-" + NatToString(u)
  {
    var d := IdRequest(i, u);
    assert Lookup(d, "internship_id") == PyInt(i);
    assert Lookup(d, "user_id") == PyInt(u);
  }

  /** Stripping the common "APP-" prefix leaves two dash-joined ids with digit-only heads. */
  lemma AppIdSplit(x: string, y: string, u: string, v: string)
    requires AllDigits(x) && AllDigits(u)
    requires "APP-" + x + "-" + y == "APP-" + u + "-" + v
    ensures x == u && y == v
  {
    var p, q := "APP-" + x + "-" + y, "APP-" + u + "-" + v;
    assert x + "-" + y == p[4..];
    assert u + "-" + v == q[4..];
    DashSplit(x, y, u, v);
  }

  /** For positive integer ids the application id determines both ids. */
  lemma ApplicationIdInjective(i1: nat, u1: nat, i2: nat, u2: nat)
    requires i1 > 0 && u1 > 0 && i2 > 0 && u2 > 0
    ensures ApplyInternship(IdRequest(i1, u1)) == ApplyInternship(IdRequest(i2, u2)) ==> i1 == i2 && u1 == u2
  {
    var r1, r2 := ApplyInternship(IdRequest(i1, u1)), ApplyInternship(IdRequest(i2, u2));
    if r1 == r2 {
      IdRequestAnswer(i1, u1);
      IdRequestAnswer(i2, u2);
      AppIdSplit(NatToString(i1), NatToString(u1), NatToString(i2), NatToString(u2));
      NatToStringInjective(i1, i2);
      NatToStringInjective(u1, u2);
    }
  }
}
