/** Values shared by every tier of the recommender: optional values, steps that may raise,
    loosely typed request values, catalogue rows and recommendation records. */
module Records {
  import opened Text

  datatype Option<+T> = None | Some(value: T) {
    function GetOr(default: T): T {
      match this
      case Some(v) => v
      case None => default
    }
  }

  /** The outcome of a step that may raise an exception: its value, or the exception's text. */
  datatype Attempt<+T> = Ok(value: T) | Raised(message: string)

  /** A value of a JSON request body as Python sees it. */
  datatype PyValue = PyNone | PyBool(b: bool) | PyInt(i: int) | PyStr(s: string)

  /** Python truthiness: `None`, `False`, `0` and `""` are false. */
  predicate Truthy(v: PyValue) {
    match v
    case PyNone => false
    case PyBool(b) => b
    case PyInt(i) => i != 0
    case PyStr(s) => s != []
  }

  /** `str(v)`. */
  function PyStrOf(v: PyValue): string {
    match v
    case PyNone => "None"
    case PyBool(b) => if b then "True" else "False"
    case PyInt(i) => IntToString(i)
    case PyStr(s) => s
  }

  /** A dictionary of strings: a candidate's resume as posted by the front end. */
  type Resume = map<string, string>

  /** `d.get(k, default)` on a string dictionary. */
  function Get(d: map<string, string>, k: string, default: string): string {
    if k in d then d[k] else default
  }

  /** One row of the internship catalogue (a line of the CSV file). Cells are their string
      form; only the preferred-skills cell records whether it was empty, because the tiers
      test that with `pd.notna`. `companyColumn` is the cell of a column literally named
      `Company`, which only the keyword tier reads; `None` when the catalogue has no such
      column. */
  datatype Posting = Posting(
    companyName: string,
    companyColumn: Option<string>,
    title: string,
    sector: string,
    areaField: string,
    location: string,
    state: string,
    preferredSkills: Option<string>)

  /** A catalogue record as app.py keeps it in `internships_data`. */
  datatype Internship = Internship(
    id: nat,
    internshipId: string,
    company: string,
    title: string,
    state: string,
    sector: string,
    specialization: string,
    skills: string,
    location: string,
    opportunities: int)

  /** One ranked output item of a synthesising tier. */
  datatype Recommendation = Recommendation(
    rank: int,
    company: string,
    title: string,
    matchScore: int,
    reasoning: string,
    skills: seq<string>)

  /** Ranks run 1, 2, ... with no gap or repeat. */
  predicate DenseRanks(recs: seq<Recommendation>) {
    forall i :: 0 <= i < |recs| ==> recs[i].rank == i + 1
  }

  /** A field of a recommendation dictionary as it travels as JSON. */
  datatype Field = FStr(s: string) | FInt(i: int) | FList(items: seq<string>)

  /** A recommendation as a loose dictionary: what the generative tier returns, and what
      app.py reads with `.get(key, default)`. */
  type RecDict = map<string, Field>

  function ToDict(r: Recommendation): (d: RecDict)
    ensures d.Keys == {"rank", "company", "title", "match_score", "reasoning", "skills_to_highlight"}
    ensures d["rank"] == FInt(r.rank) && d["match_score"] == FInt(r.matchScore)
  {
    map["rank" := FInt(r.rank), "company" := FStr(r.company), "title" := FStr(r.title),
        "match_score" := FInt(r.matchScore), "reasoning" := FStr(r.reasoning),
        "skills_to_highlight" := FList(r.skills)]
  }

  function ToDicts(rs: seq<Recommendation>): (ds: seq<RecDict>)
    ensures |ds| == |rs|
    ensures forall i :: 0 <= i < |rs| ==> ds[i] == ToDict(rs[i])
  {
    if rs == [] then [] else [ToDict(rs[0])] + ToDicts(rs[1..])
  }

  function Min(a: int, b: int): int { if a <= b then a else b }

  function Max(a: int, b: int): int { if a >= b then a else b }

  /** Python's `s[:k]` for any integer `k` (a negative `k` drops from the end). */
  function PyPrefix<T>(s: seq<T>, k: int): (r: seq<T>)
    ensures k >= 0 ==> |r| == Min(k, |s|)
    ensures k < 0 ==> |r| == Max(0, |s| + k)
    ensures r <= s
  {
    if k >= 0 then s[..Min(k, |s|)] else s[..Max(0, |s| + k)]
  }

  lemma AppendAssoc<T>(a: seq<T>, b: seq<T>, c: seq<T>)
    ensures (a + b) + c == a + (b + c)
  {
  }
}
