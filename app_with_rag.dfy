/** The recommendation handler of app_with_rag.py: after validation it tries the integrated
    recommender, then the TF-IDF recommender, then the keyword tier over a freshly read
    catalogue. Each recommender object is present or absent (its lazy construction may
    have failed); what the integrated recommender's call does, the TF-IDF recommender's
    catalogue and returned list, the catalogue read and the clock are parameters. */
module AppWithRag {
  import opened Records
  import opened Retrieval
  import opened KeywordTier
  import Integrated

  /** The request as the recommenders read it: every value as `str()` renders it. */
  function AsResume(req: Request): (r: Resume)
    ensures r.Keys == req.Keys
    ensures forall k :: k in req ==> r[k] == PyStrOf(req[k])
  {
    map k | k in req :: PyStrOf(req[k])
  }

  /** The backup tier's answer: the TF-IDF recommender's list with its catalogue size. */
  function BackupResult(req: Request, backup: (seq<Posting>, seq<Recommendation>), now: string)
    : (t: Integrated.TierResult)
    ensures t.methodTag == "backup" && t.fallbackUsed
    ensures t.totalAnalyzed == |backup.0| && |t.recommendations| == |backup.1|
  {
    Integrated.TierResult(ProfileText(AsResume(req)), |backup.0|, ToDicts(backup.1), "backup", true, now)
  }

  /** The outcome of `recommend`. `integrated` is the integrated recommender's call (`None`
      when there is no such object), `backup` the TF-IDF recommender's catalogue and list
      (`None` when there is none), `readCsv` the catalogue read of the last tier. */
  function Outcome(req: Request, integrated: Option<Attempt<Integrated.TierResult>>,
                   backup: Option<(seq<Posting>, seq<Recommendation>)>,
                   readCsv: Attempt<seq<Posting>>, now: string): Response<Integrated.TierResult>
  {
    var missing := MissingField(req);
    if missing.Some? then MissingFieldError(missing.value)
    else if integrated.Some? && integrated.value.Ok? then Success(integrated.value.value)
    else if backup.Some? then Success(BackupResult(req, backup.value, now))
    else if readCsv.Raised? then Failure(500, readCsv.message)
    else KeywordResponse(req, readCsv.value, "simple", now)
  }

  /** `recommend` with `get_simple_recommendations` inlined as its last step. */
  method Recommend(req: Request, integrated: Option<Attempt<Integrated.TierResult>>,
                   backup: Option<(seq<Posting>, seq<Recommendation>)>,
                   readCsv: Attempt<seq<Posting>>, now: string)
    returns (r: Response<Integrated.TierResult>)
    ensures r == Outcome(req, integrated, backup, readCsv, now)
  {
    var missing := CheckRequired(req);
    if missing.Some? {
      return MissingFieldError(missing.value);
    }
    if integrated.Some? {
      if integrated.value.Ok? {
        return Success(integrated.value.value);
      }
    }
    if backup.Some? {
      return Success(BackupResult(req, backup.value, now));
    }
    if readCsv.Raised? {
      return Failure(500, readCsv.message);
    }
    var skills := LoweredSkills(req);
    if skills.Raised? {
      return Failure(500, skills.message);
    }
    var recs := MatchKeywords(readCsv.value, Lookup(req, "skills").s);
    r := Success(Integrated.TierResult(ShortProfile(req), |readCsv.value|, ToDicts(recs), "simple", true, now));
  }

  /** The tiers are tried in order: validation comes first and answers 400 exactly when a
      required field is missing; a successful integrated call always wins; otherwise the
      TF-IDF recommender answers whenever it exists; when both are unavailable the keyword
      tier answers, reporting itself as "simple" with at most five entries, or the call
      fails with status 500. */
  lemma TierOrder(req: Request, integrated: Option<Attempt<Integrated.TierResult>>,
                  backup: Option<(seq<Posting>, seq<Recommendation>)>,
                  readCsv: Attempt<seq<Posting>>, now: string)
    ensures var r := Outcome(req, integrated, backup, readCsv, now);
      && (r.Failure? && r.status == 400 <==> MissingField(req).Some?)
      && (MissingField(req).None? && integrated.Some? && integrated.value.Ok? ==>
            r == Success(integrated.value.value))
      && (MissingField(req).None? && !(integrated.Some? && integrated.value.Ok?) && backup.Some? ==>
            r.Success? && r.body.methodTag == "backup" && r.body.totalAnalyzed == |backup.value.0|)
      && (MissingField(req).None? && !(integrated.Some? && integrated.value.Ok?) && backup.None? ==>
            (r.Failure? ==> r.status == 500)
            && (r.Success? ==> readCsv.Ok? && r.body.methodTag == "simple"
                                && r.body.totalAnalyzed == |readCsv.value| && |r.body.recommendations| <= 5))
  {
    if MissingField(req).None? && !(integrated.Some? && integrated.value.Ok?) && backup.None? && readCsv.Ok? {
      KeywordResponseCases(req, readCsv.value, "simple", now);
    }
  }

  /** With the integrated recommender as written (both of its fallback tiers read the clock
      through the unbound name `pd` and raise), a failed or absent generative tier makes the
      integrated call raise, so the application's own TF-IDF recommender answers whenever it
      exists: the integrated fallback tiers never reach a client of this application. */
  lemma IntegratedFallbackNeverAnswers(req: Request, primary: Option<Attempt<Integrated.RagRecommender.RagResult>>,
                                       integratedBackup: Option<(seq<Posting>, seq<Recommendation>)>,
                                       resume: Resume, resumeRepr: string,
                                       backup: (seq<Posting>, seq<Recommendation>),
                                       readCsv: Attempt<seq<Posting>>, now: string)
    requires MissingField(req).None?
    requires !(primary.Some? && primary.value.Ok?)
    ensures var call := Integrated.Chain(primary, integratedBackup, resume, resumeRepr, 5,
                                         Integrated.PandasUnbound, Integrated.PandasUnbound);
            Outcome(req, Some(call), Some(backup), readCsv, now) == Success(BackupResult(req, backup, now))
  {
    Integrated.AsWrittenFallbackRaises(primary, integratedBackup, resume, resumeRepr, 5);
  }
}
