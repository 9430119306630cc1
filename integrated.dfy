/** The tiered recommender of integrated_recommender.py: try the generative recommender,
    fall back to the TF-IDF recommender, and fall back again to a fixed emergency list.
    Each tier is an attempt that may raise. The primary tier's run and the list the TF-IDF
    recommender returns (it never raises, see `SimpleBackup.GetRecommendations`) are
    parameters, and so is every reading of the clock. */
module Integrated {
  import opened Text
  import opened Records
  import opened Retrieval
  import RagRecommender

  /** The dictionary `recommend_internships` returns, with the tier that produced it. */
  datatype TierResult = TierResult(
    candidateProfile: string,
    totalAnalyzed: nat,
    recommendations: seq<RecDict>,
    methodTag: string,
    fallbackUsed: bool,
    timestamp: string)

  /** Reading the clock as `pd.Timestamp.now().isoformat()` does in this file: the module
      never imports pandas, so the name `pd` is unbound and the lookup raises. */
  const PandasUnbound: Attempt<string> := Raised("name 'pd' is not defined")

  /** The message of the exception raised when even the emergency tier fails. */
  const AllFailed: string := "❌ All recommendation systems failed completely!"

  /** The message `setup_recommenders` raises when no component could be built. */
  const NoneAvailable: string := "❌ No recommendation system available!"

  // ---------------------------------------------------------------- emergency tier

  /** The i-th emergency entry: placeholder company and title, score 70, no skills. */
  function EmergencyEntry(i: nat): (r: Recommendation)
    ensures r.rank == i + 1 && r.matchScore == 70 && r.skills == []
  {
    Recommendation(i + 1, "Company " + NatToString(i + 1), "Internship " + NatToString(i + 1), 70,
                   "Basic recommendation due to system limitations", [])
  }

  /** `len(range(min(3, n)))`. */
  function EmergencyCount(n: int): (c: nat)
    ensures c <= 3
    ensures n >= 0 ==> c == Min(3, n)
  {
    if n <= 0 then 0 else Min(3, n)
  }

  function EmergencyList(n: int): (r: seq<Recommendation>)
    ensures |r| == EmergencyCount(n)
  {
    seq(EmergencyCount(n), i requires 0 <= i < EmergencyCount(n) => EmergencyEntry(i))
  }

  /** The loop of the emergency branch. */
  method EmergencyRecommendations(n: int) returns (r: seq<Recommendation>)
    ensures r == EmergencyList(n)
  {
    r := [];
    for i := 0 to EmergencyCount(n)
      invariant |r| == i
      invariant forall k :: 0 <= k < i ==> r[k] == EmergencyEntry(k)
    {
      r := r + [EmergencyEntry(i)];
    }
  }

  /** The emergency list has min(3, n) entries ranked 1..k, each scored 70 with no skills,
      and the first three positions name companies 1, 2 and 3. */
  lemma EmergencyListProperties(n: int)
    ensures var r := EmergencyList(n);
      && |r| == (if n <= 0 then 0 else Min(3, n))
      && DenseRanks(r)
      && (forall i :: 0 <= i < |r| ==> r[i].matchScore == 70 && r[i].skills == [])
      && (forall i :: 0 <= i < |r| ==> r[i].company == "Company " + NatToString(i + 1))
  {
    var r := EmergencyList(n);
    forall i | 0 <= i < |r|
      ensures r[i] == EmergencyEntry(i)
    {
    }
  }

  // ---------------------------------------------------------------- the tier chain

  /** The primary result tagged as `recommend_internships` tags it. */
  function PrimaryResult(p: RagRecommender.RagResult): (t: TierResult)
    ensures t.methodTag == "primary" && !t.fallbackUsed
    ensures t.recommendations == p.recommendations
  {
    TierResult(p.candidateProfile, p.totalAnalyzed, p.recommendations, "primary", false, p.timestamp)
  }

  /** The outcome of the tier chain. `primary` is the primary recommender's run, or `None`
      when there is no primary recommender; `backup` is the TF-IDF recommender's catalogue
      and returned list, or `None` when there is none. */
  function Chain(primary: Option<Attempt<RagRecommender.RagResult>>,
                 backup: Option<(seq<Posting>, seq<Recommendation>)>,
                 resume: Resume, resumeRepr: string, n: int,
                 backupClock: Attempt<string>, emergencyClock: Attempt<string>): Attempt<TierResult>
  {
    if primary.Some? && primary.value.Ok? then Ok(PrimaryResult(primary.value.value))
    else if backup.Some? && backupClock.Ok? then
      Ok(TierResult(ProfileText(resume), |backup.value.0|, ToDicts(backup.value.1), "backup", true,
                    backupClock.value))
    else if emergencyClock.Ok? then
      Ok(TierResult(resumeRepr, 0, ToDicts(EmergencyList(n)), "emergency_fallback", true,
                    emergencyClock.value))
    else Raised(AllFailed)
  }

  /** Every result of the chain names the tier that produced it, and the fallback flag is
      set exactly when that tier is not the primary one. A successful primary run always
      wins; otherwise the TF-IDF tier wins whenever it exists and the clock can be read. */
  lemma ChainTags(primary: Option<Attempt<RagRecommender.RagResult>>,
                  backup: Option<(seq<Posting>, seq<Recommendation>)>,
                  resume: Resume, resumeRepr: string, n: int,
                  backupClock: Attempt<string>, emergencyClock: Attempt<string>)
    ensures var r := Chain(primary, backup, resume, resumeRepr, n, backupClock, emergencyClock);
      && (r.Ok? ==> r.value.methodTag in {"primary", "backup", "emergency_fallback"})
      && (r.Ok? ==> (r.value.fallbackUsed <==> r.value.methodTag != "primary"))
      && (primary.Some? && primary.value.Ok? ==> r.Ok? && r.value.methodTag == "primary")
      && (!(primary.Some? && primary.value.Ok?) && backup.Some? && backupClock.Ok? ==>
            r.Ok? && r.value.methodTag == "backup" && r.value.totalAnalyzed == |backup.value.0|)
      && (r.Ok? && r.value.methodTag == "emergency_fallback" ==>
            r.value.totalAnalyzed == 0 && |r.value.recommendations| == EmergencyCount(n))
  {
  }

  /** With a clock that can be read, the chain never raises: the emergency tier always
      succeeds. */
  lemma ChainWithClockNeverRaises(primary: Option<Attempt<RagRecommender.RagResult>>,
                                  backup: Option<(seq<Posting>, seq<Recommendation>)>,
                                  resume: Resume, resumeRepr: string, n: int, now: string)
    ensures Chain(primary, backup, resume, resumeRepr, n, Ok(now), Ok(now)).Ok?
  {
  }

  /** As written, both fallback tiers read the clock through the unbound name `pd`, so
      whenever the primary tier is absent or raises, the whole call raises: the TF-IDF and
      emergency tiers can never produce a result. */
  lemma AsWrittenFallbackRaises(primary: Option<Attempt<RagRecommender.RagResult>>,
                                backup: Option<(seq<Posting>, seq<Recommendation>)>,
                                resume: Resume, resumeRepr: string, n: int)
    requires !(primary.Some? && primary.value.Ok?)
    ensures Chain(primary, backup, resume, resumeRepr, n, PandasUnbound, PandasUnbound) == Raised(AllFailed)
  {
  }

  // ---------------------------------------------------------------- the recommender object

  /** `get_system_status`; `api_configured` comes from the environment. */
  datatype Status = Status(
    primaryAvailable: bool,
    backupAvailable: bool,
    apiConfigured: bool,
    backupChromadbReady: bool,
    backupChunksCount: nat)

  /** The recommender object: each component is present (holding the catalogue it loaded)
      or `None`. */
  class IntegratedRecommender {
    var primaryRecommender: Option<seq<Posting>>
    var backupRecommender: Option<seq<Posting>>

    /** `__init__` up to the call of `setup_recommenders`, which is `SetupRecommenders`. */
    constructor ()
      ensures primaryRecommender == None && backupRecommender == None
    {
      primaryRecommender := None;
      backupRecommender := None;
    }

    /** `setup_recommenders`: the primary recommender is built only when an API key is
        configured; a component whose construction raises stays absent; the call raises
        when neither component is present afterwards. */
    method SetupRecommenders(apiConfigured: bool, primaryLoad: Attempt<seq<Posting>>,
                             backupLoad: Attempt<seq<Posting>>)
      returns (outcome: Attempt<()>)
      modifies this
      ensures primaryRecommender ==
        if apiConfigured && primaryLoad.Ok? then Some(primaryLoad.value) else old(primaryRecommender)
      ensures backupRecommender == if backupLoad.Ok? then Some(backupLoad.value) else None
      ensures outcome.Raised? <==> primaryRecommender.None? && backupRecommender.None?
      ensures outcome.Raised? ==> outcome.message == NoneAvailable
    {
      if apiConfigured && primaryLoad.Ok? {
        primaryRecommender := Some(primaryLoad.value);
      }
      if backupLoad.Ok? {
        backupRecommender := Some(backupLoad.value);
      } else {
        backupRecommender := None;
      }
      if primaryRecommender.None? && backupRecommender.None? {
        return Raised(NoneAvailable);
      }
      outcome := Ok(());
    }

    /** `recommend_internships`. `primaryRun` is what the primary recommender's call does,
        `backupRecs` what the TF-IDF recommender returns, `resumeRepr` the text `str(resume)`,
        and the two clocks are the two readings of the time. */
    method RecommendInternships(resume: Resume, resumeRepr: string, n: int,
                                primaryRun: Attempt<RagRecommender.RagResult>,
                                backupRecs: seq<Recommendation>,
                                backupClock: Attempt<string>, emergencyClock: Attempt<string>)
      returns (r: Attempt<TierResult>)
      ensures r == Chain(if primaryRecommender.Some? then Some(primaryRun) else None,
                         if backupRecommender.Some? then Some((backupRecommender.value, backupRecs)) else None,
                         resume, resumeRepr, n, backupClock, emergencyClock)
    {
      if primaryRecommender.Some? {
        if primaryRun.Ok? {
          return Ok(PrimaryResult(primaryRun.value));
        }
      }
      if backupRecommender.Some? {
        var profile := ProfileText(resume);
        var total := |backupRecommender.value|;
        if backupClock.Ok? {
          return Ok(TierResult(profile, total, ToDicts(backupRecs), "backup", true, backupClock.value));
        }
      }
      var emergency := EmergencyRecommendations(n);
      if emergencyClock.Raised? {
        return Raised(AllFailed);
      }
      r := Ok(TierResult(resumeRepr, 0, ToDicts(emergency), "emergency_fallback", true, emergencyClock.value));
    }

    /** `get_system_status`: each component is reported available exactly when it is
        present. The TF-IDF recommender has no vector store, so it counts as ready with one
        "chunk" per catalogue row. */
    function SystemStatus(apiConfigured: bool): (s: Status)
      reads this
      ensures s.primaryAvailable <==> primaryRecommender.Some?
      ensures s.backupAvailable <==> backupRecommender.Some?
      ensures s.backupChromadbReady == s.backupAvailable
      ensures s.backupChunksCount == if backupRecommender.Some? then |backupRecommender.value| else 0
    {
      Status(primaryRecommender.Some?, backupRecommender.Some?, apiConfigured,
             backupRecommender.Some?,
             if backupRecommender.Some? then |backupRecommender.value| else 0)
    }
  }
}
