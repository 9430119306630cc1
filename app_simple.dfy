/** The recommendation handler of app_simple.py: the keyword tier is its only recommender.
    The catalogue is the table the module loads when it starts (empty when loading fails),
    and the clock reading is a parameter. The application handler is
    `KeywordTier.ApplyInternship`. */
module AppSimple {
  import opened Records
  import opened KeywordTier
  import Integrated

  /** `recommend`: validate, lower-case the skills, run the matching loop, and report the
      result under the method name "backup". */
  method Recommend(req: Request, catalog: seq<Posting>, now: string)
    returns (r: Response<Integrated.TierResult>)
    ensures r == KeywordResponse(req, catalog, "backup", now)
  {
    var missing := CheckRequired(req);
    if missing.Some? {
      return MissingFieldError(missing.value);
    }
    var skills := LoweredSkills(req);
    if skills.Raised? {
      return Failure(500, skills.message);
    }
    var recs := MatchKeywords(catalog, Lookup(req, "skills").s);
    r := Success(Integrated.TierResult(ShortProfile(req), |catalog|, ToDicts(recs), "backup", true, now));
  }
}
