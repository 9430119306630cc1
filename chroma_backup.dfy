/** The vector-store backup recommender: cut the candidate profile into overlapping windows,
    look each window up in the store of catalogue chunks, keep the best match per chunk id,
    and describe the best few. The store lookup (embedding, nearest-neighbour search and the
    normalisation of distances to a 0-100 confidence) is a parameter that returns, for one
    window, its matches or the exception it raised. */
module ChromaBackup {
  import opened Text
  import opened Records
  import opened Ranking
  import opened Retrieval

  // ---------------------------------------------------------------- chunking

  /** How many windows a text of length `len` yields when the window start advances by
      `step`: one per start position below `len`. */
  function ChunkCount(len: int, step: int): (c: nat)
    requires step > 0
    ensures len <= 0 <==> c == 0
    decreases len
  {
    if len <= 0 then 0 else 1 + ChunkCount(len - step, step)
  }

  /** The window count is `ceil(len / step)`: the least `c` with `c * step >= len`. */
  lemma {:induction false} ChunkCountCeiling(len: int, step: int)
    requires step > 0 && len > 0
    ensures var c := ChunkCount(len, step); (c - 1) * step < len <= c * step
    decreases len
  {
    var c := ChunkCount(len, step);
    if len - step > 0 {
      ChunkCountCeiling(len - step, step);
      MulSucc(c - 1, step);
      MulSucc(c - 2, step);
    }
  }

  lemma MulSucc(k: int, step: int)
    ensures (k + 1) * step == k * step + step
  {
  }

  /** Python's `text[start:start + size]` for a start inside the text. A negative end counts
      from the back of the text, so a negative `size` can still yield characters:
      `"abcdef"[0:-1]` is `"abcde"`. */
  function Window(text: string, start: nat, size: int): (w: string)
    requires start < |text|
    ensures w <= text[start..]
    ensures size >= 0 ==> |w| == Min(size, |text| - start)
    ensures size < 0 && start + size >= 0 ==> w == []
    ensures start + size < 0 ==> |w| == Max(0, |text| + size)
  {
    var upTo := PyPrefix(text, start + size);
    if start <= |upTo| then upTo[start..] else []
  }

  /** The start of window `i`, counted out step by step. */
  function Offset(i: nat, step: nat): nat {
    if i == 0 then 0 else Offset(i - 1, step) + step
  }

  /** Window `i` starts at `i * step`. */
  lemma {:induction false} OffsetIsProduct(i: nat, step: nat)
    ensures Offset(i, step) == i * step
  {
    if i > 0 {
      OffsetIsProduct(i - 1, step);
      MulSucc(i - 1, step);
    }
  }

  /** Every counted window starts inside the text. */
  lemma {:induction false} OffsetInside(len: int, step: nat, i: nat)
    requires step > 0 && i < ChunkCount(len, step)
    ensures Offset(i, step) < len
    decreases i
  {
    if i > 0 {
      OffsetInside(len - step, step, i - 1);
    }
  }

  /** Window `i` of `text`, stripped; empty once the start is past the end. */
  function ChunkAt(text: string, size: int, step: nat, i: nat): string {
    if Offset(i, step) < |text| then Strip(Window(text, Offset(i, step), size)) else []
  }

  /** The first `n` stripped windows of `text`. */
  function ChunksUpTo(text: string, size: int, step: nat, n: nat): (chunks: seq<string>)
    ensures |chunks| == n
  {
    seq(n, i requires 0 <= i < n => ChunkAt(text, size, step, i))
  }

  /** The stripped windows of `text`; window `i` starts at `Offset(i, step)`. */
  function Chunks(text: string, size: int, step: nat): (chunks: seq<string>)
    requires step > 0
    ensures |chunks| == ChunkCount(|text|, step)
  {
    ChunksUpTo(text, size, step, ChunkCount(|text|, step))
  }

  /** `chunk_text(text, chunk_size, overlap)`: windows of `chunk_size` characters whose starts
      advance by `chunk_size - overlap`. An empty text gives no chunks whatever the sizes; on
      any other text the source loops forever unless `chunk_size > overlap`, so that is
      required there. */
  method ChunkText(text: string, chunkSize: int, overlap: int) returns (chunks: seq<string>)
    requires text == [] || chunkSize > overlap
    ensures text == [] ==> chunks == []
    ensures chunkSize > overlap ==> chunks == Chunks(text, chunkSize, chunkSize - overlap)
  {
    if text == [] {
      return [];
    }
    var step := chunkSize - overlap;
    chunks := [];
    var start := 0;
    while start < |text|
      invariant start == Offset(|chunks|, step)
      invariant ChunkCount(|text|, step) == |chunks| + ChunkCount(|text| - start, step)
      invariant chunks == ChunksUpTo(text, chunkSize, step, |chunks|)
      decreases |text| - start
    {
      var chunk := Strip(Window(text, start, chunkSize));
      ChunksSnoc(text, chunkSize, step, |chunks|, chunk);
      ChunkCountStep(|text| - start, step);
      chunks := chunks + [chunk];
      start := start + step;
    }
  }

  /** A window taken at a start inside the text leaves the rest to the count. */
  lemma ChunkCountStep(len: int, step: nat)
    requires step > 0 && len > 0
    ensures ChunkCount(len, step) == 1 + ChunkCount(len - step, step)
  {
  }

  /** One step of the chunking loop: the window at the current start extends the windows
      built so far. */
  lemma ChunksSnoc(text: string, size: int, step: nat, n: nat, chunk: string)
    requires Offset(n, step) < |text|
    requires chunk == Strip(Window(text, Offset(n, step), size))
    ensures ChunksUpTo(text, size, step, n) + [chunk] == ChunksUpTo(text, size, step, n + 1)
  {
    var before, after := ChunksUpTo(text, size, step, n), ChunksUpTo(text, size, step, n + 1);
    forall i | 0 <= i < n + 1
      ensures (before + [chunk])[i] == after[i]
    {
      if i == n {
        assert (before + [chunk])[i] == chunk == ChunkAt(text, size, step, n);
      } else {
        assert (before + [chunk])[i] == before[i];
      }
    }
  }

  /** What the source promises of its windows: none for an empty text, `ceil(len / step)` for
      a non-empty one, window `i` starting at `i * step`, at most `chunk_size` characters
      each (for a negative `chunk_size`, at most `len + chunk_size`). */
  lemma ChunksProperties(text: string, size: int, step: nat)
    requires step > 0
    ensures Chunks(text, size, step) == [] <==> text == []
    ensures text != [] ==>
      (|Chunks(text, size, step)| - 1) * step < |text| <= |Chunks(text, size, step)| * step
    ensures forall i :: 0 <= i < |Chunks(text, size, step)| ==>
      i * step < |text| && Chunks(text, size, step)[i] == Strip(Window(text, i * step, size))
      && |Chunks(text, size, step)[i]| <= WindowBound(|text|, size)
  {
    var chunks := Chunks(text, size, step);
    if text != [] {
      ChunkCountCeiling(|text|, step);
    }
    forall i | 0 <= i < |chunks|
      ensures i * step < |text| && chunks[i] == Strip(Window(text, i * step, size))
      ensures |chunks[i]| <= WindowBound(|text|, size)
    {
      ChunkAtIsWindow(text, size, step, i);
    }
  }

  /** A negative chunk size counts the window end from the back: `chunk_text("abcdef", -1, -5)`
      advances by 4 and yields `"abcde"` and then the empty window `"abcdef"[4:3]`. */
  lemma NegativeSizeChunks()
    ensures Chunks("abcdef", -1, 4) == ["abcde", ""]
  {
    var c := Chunks("abcdef", -1, 4);
    assert |c| == 2 by {
      assert ChunkCount(-2, 4) == 0;
      assert ChunkCount(6, 4) == 2;
    }
    assert c[0] == "abcde" by {
      assert Window("abcdef", 0, -1) == "abcde";
      assert LeadCount("abcde") == 0;
      assert TrailStart("abcde") == 5;
    }
    assert c[1] == "" by {
      assert Offset(1, 4) == 4;
      assert Window("abcdef", 4, -1) == "";
    }
  }

  /** The most characters a window of `size` can hold in a text of length `len`. */
  function WindowBound(len: nat, size: int): nat {
    if size >= 0 then size else Max(0, len + size)
  }

  lemma ChunkAtIsWindow(text: string, size: int, step: nat, i: nat)
    requires step > 0 && i < ChunkCount(|text|, step)
    ensures i * step < |text| && ChunkAt(text, size, step, i) == Strip(Window(text, i * step, size))
    ensures |ChunkAt(text, size, step, i)| <= WindowBound(|text|, size)
  {
    OffsetInside(|text|, step, i);
    OffsetIsProduct(i, step);
  }

  // ---------------------------------------------------------------- matches

  /** One hit of a store lookup: the chunk id (`"<row>_<chunk>"`), the chunk's text and a
      confidence. */
  datatype Match = Match(id: string, text: string, conf: real)

  function ConfOf(m: Match): real { m.conf }

  /** All hits of all windows in window order, or the first exception a lookup raised. */
  function AllMatches(chunks: seq<string>, query: string -> Attempt<seq<Match>>): Attempt<seq<Match>>
  {
    if chunks == [] then Ok([])
    else
      match AllMatches(chunks[..|chunks| - 1], query)
      case Raised(e) => Raised(e)
      case Ok(acc) =>
        match query(chunks[|chunks| - 1])
        case Raised(e) => Raised(e)
        case Ok(ms) => Ok(acc + ms)
  }

  /** Once a window's lookup has raised, the later windows change nothing. */
  lemma {:induction false} RaisedPersists(chunks: seq<string>, k: nat, query: string -> Attempt<seq<Match>>)
    requires k <= |chunks|
    requires AllMatches(chunks[..k], query).Raised?
    ensures AllMatches(chunks, query) == AllMatches(chunks[..k], query)
    decreases |chunks| - k
  {
    if k < |chunks| {
      assert chunks[..|chunks| - 1][..k] == chunks[..k];
      RaisedPersists(chunks[..|chunks| - 1], k, query);
    } else {
      assert chunks[..k] == chunks;
    }
  }

  /** The lookup loop of `get_recommendations`. */
  method CollectMatches(chunks: seq<string>, query: string -> Attempt<seq<Match>>)
    returns (r: Attempt<seq<Match>>)
    ensures r == AllMatches(chunks, query)
  {
    var acc := [];
    var k := 0;
    while k < |chunks|
      invariant 0 <= k <= |chunks|
      invariant AllMatches(chunks[..k], query) == Ok(acc)
    {
      assert chunks[..k + 1][..k] == chunks[..k];
      var res := query(chunks[k]);
      if res.Raised? {
        RaisedPersists(chunks, k + 1, query);
        return Raised(res.message);
      }
      acc := acc + res.value;
      k := k + 1;
    }
    assert chunks[..k] == chunks;
    r := Ok(acc);
  }

  // ---------------------------------------------------------------- deduplication

  function IdsOf(ms: seq<Match>): set<string> {
    set m | m in ms :: m.id
  }

  /** The first match of each chunk id, in order. */
  function FirstById(ms: seq<Match>): (d: seq<Match>)
    ensures |d| <= |ms|
  {
    if ms == [] then []
    else
      var d := FirstById(ms[..|ms| - 1]);
      if ms[|ms| - 1].id in IdsOf(d) then d else d + [ms[|ms| - 1]]
  }

  /** Deduplicating a prefix gives a prefix of the deduplicated whole. */
  lemma {:induction false} FirstByIdPrefix(ms: seq<Match>, k: nat)
    requires k <= |ms|
    ensures FirstById(ms[..k]) <= FirstById(ms)
    decreases |ms|
  {
    if k < |ms| {
      FirstByIdPrefix(ms[..|ms| - 1], k);
      assert ms[..|ms| - 1][..k] == ms[..k];
    } else {
      assert ms[..k] == ms;
    }
  }

  lemma IdsOfSnoc(ms: seq<Match>, m: Match)
    ensures IdsOf(ms + [m]) == IdsOf(ms) + {m.id}
  {
    assert forall x :: x in ms + [m] <==> x in ms || x == m;
  }

  /** Deduplication keeps only matches from the input, and every id the input has. */
  lemma {:induction false} FirstByIdIds(ms: seq<Match>)
    ensures forall m :: m in FirstById(ms) ==> m in ms
    ensures IdsOf(FirstById(ms)) == IdsOf(ms)
  {
    if ms != [] {
      var init := ms[..|ms| - 1];
      var last := ms[|ms| - 1];
      FirstByIdIds(init);
      assert ms == init + [last];
      IdsOfSnoc(init, last);
      if last.id !in IdsOf(FirstById(init)) {
        IdsOfSnoc(FirstById(init), last);
      }
    }
  }

  /** No two matches of `d` share a chunk id. */
  predicate UniqueIds(d: seq<Match>) {
    forall i, j :: 0 <= i < j < |d| ==> d[i].id != d[j].id
  }

  /** Deduplication keeps one match per id. */
  lemma {:induction false} FirstByIdUnique(ms: seq<Match>)
    ensures UniqueIds(FirstById(ms))
  {
    if ms != [] {
      var init := ms[..|ms| - 1];
      var last := ms[|ms| - 1];
      FirstByIdUnique(init);
      var d0 := FirstById(init);
      assert FirstById(ms) == if last.id in IdsOf(d0) then d0 else d0 + [last];
      if last.id !in IdsOf(d0) {
        var d := d0 + [last];
        assert FirstById(ms) == d;
        forall i, j | 0 <= i < j < |d|
          ensures d[i].id != d[j].id
        {
          if j == |d| - 1 {
            assert d[i] == d0[i] && d0[i] in d0 && d[j] == last;
            assert d0[i].id in IdsOf(d0);
            assert d[i].id != d[j].id;
          } else {
            assert d[i] == d0[i] && d[j] == d0[j];
          }
        }
      }
    }
  }

  /** Deduplicating a list ordered by confidence leaves it ordered by confidence. */
  lemma {:induction false} FirstByIdSorted(ms: seq<Match>)
    requires SortedDesc(ms, ConfOf)
    ensures SortedDesc(FirstById(ms), ConfOf)
  {
    if ms != [] {
      var init := ms[..|ms| - 1];
      var last := ms[|ms| - 1];
      assert SortedDesc(init, ConfOf);
      FirstByIdSorted(init);
      FirstByIdIds(init);
      var d0 := FirstById(init);
      if last.id !in IdsOf(d0) {
        forall i | 0 <= i < |d0|
          ensures ConfOf(d0[i]) >= ConfOf(last)
        {
          assert d0[i] in init;
          var k :| 0 <= k < |init| && init[k] == d0[i];
          assert ms[k] == d0[i];
        }
        var d := d0 + [last];
        forall i, j | 0 <= i < j < |d|
          ensures ConfOf(d[i]) >= ConfOf(d[j])
        {
          if j < |d0| {
            assert d[i] == d0[i] && d[j] == d0[j];
          }
        }
      }
    }
  }

  /** Deduplication keeps one match per id, only matches from the input, every id, and the
      input's order by confidence. */
  lemma FirstByIdProperties(ms: seq<Match>)
    ensures var d := FirstById(ms);
      && UniqueIds(d)
      && (forall m :: m in d ==> m in ms)
      && IdsOf(d) == IdsOf(ms)
      && (SortedDesc(ms, ConfOf) ==> SortedDesc(d, ConfOf))
  {
    FirstByIdIds(ms);
    FirstByIdUnique(ms);
    if SortedDesc(ms, ConfOf) {
      FirstByIdSorted(ms);
    }
  }

  /** Every first occurrence of an id survives deduplication. */
  lemma FirstByIdKeepsFirst(ms: seq<Match>, j: nat)
    requires j < |ms|
    requires forall k :: 0 <= k < j ==> ms[k].id != ms[j].id
    ensures ms[j] in FirstById(ms)
  {
    var init := ms[..j];
    var upto := ms[..j + 1];
    FirstByIdPrefix(ms, j + 1);
    FirstByIdIds(init);
    assert upto[..j] == init && upto[j] == ms[j];
    assert ms[j].id !in IdsOf(init);
    assert FirstById(upto) == FirstById(init) + [ms[j]];
    assert ms[j] in FirstById(upto);
  }

  /** One step of the dedup loop: match `k` is kept exactly when its id is new. */
  lemma DedupStep(ms: seq<Match>, k: nat)
    requires k < |ms|
    ensures var d := FirstById(ms[..k]);
      FirstById(ms[..k + 1]) == if ms[k].id in IdsOf(d) then d else d + [ms[k]]
  {
    assert ms[..k + 1][..k] == ms[..k];
  }

  /** The dedup loop: walk the matches, keep each id's first, and stop once there are
      `num_recommendations` of them (checked after every match, so at least one is kept). */
  method Dedup(ms: seq<Match>, n: int) returns (unique: seq<Match>)
    ensures unique == PyPrefix(FirstById(ms), Max(n, 1))
  {
    unique := [];
    var seen: set<string> := {};
    var k := 0;
    while k < |ms|
      invariant 0 <= k <= |ms|
      invariant unique == FirstById(ms[..k])
      invariant seen == IdsOf(unique)
      invariant |unique| < Max(n, 1)
    {
      var m := ms[k];
      DedupStep(ms, k);
      if m.id !in seen {
        IdsOfSnoc(unique, m);
        unique := unique + [m];
        seen := seen + {m.id};
      }
      k := k + 1;
      if |unique| >= n {
        DedupEarly(ms, k, n);
        return;
      }
    }
    assert ms[..k] == ms;
    DedupAll(ms, n);
  }

  /** Stopping once `Max(n, 1)` ids are kept returns the first `Max(n, 1)` of them. */
  lemma DedupEarly(ms: seq<Match>, k: nat, n: int)
    requires k <= |ms|
    requires |FirstById(ms[..k])| == Max(n, 1)
    ensures FirstById(ms[..k]) == PyPrefix(FirstById(ms), Max(n, 1))
  {
    FirstByIdPrefix(ms, k);
  }

  /** With fewer than `Max(n, 1)` ids in all, every one is returned. */
  lemma DedupAll(ms: seq<Match>, n: int)
    requires |FirstById(ms)| < Max(n, 1)
    ensures FirstById(ms) == PyPrefix(FirstById(ms), Max(n, 1))
  {
  }

  // ---------------------------------------------------------------- one match per internship

  /** The catalogue row a chunk id `"<row>_<chunk>"` belongs to. */
  function Owner(chunkId: string): string {
    Split(chunkId, "_")[0]
  }

  /** Deduplication works on chunk ids, so two chunks of one internship's description both
      survive it: a query returning chunks 0 and 1 of row 0 yields row 0 twice. */
  lemma AsWrittenDedupRepeatsInternship()
    ensures var ms := [Match("0_0", "Data Analyst at Acme | ...", 90.0),
                       Match("0_1", "SQL and dashboards ...", 80.0)];
      PyPrefix(FirstById(ms), Max(2, 1)) == ms && Owner(ms[0].id) == Owner(ms[1].id)
  {
    var m0 := Match("0_0", "Data Analyst at Acme | ...", 90.0);
    var m1 := Match("0_1", "SQL and dashboards ...", 80.0);
    var ms := [m0, m1];
    assert ms[..1] == [m0];
    assert FirstById([m0]) == [m0] by {
      assert [m0][..0] == [];
    }
    assert IdsOf([m0]) == {"0_0"};
    assert FirstById(ms) == ms;
    assert Split("", "_") == [""];
    assert Split("0", "_") == ["0"] by {
      assert "0"[..1] != "_" && "0"[1..] == "";
      assert [Split("", "_")[0]] + Split("", "_")[1..] == [""];
      assert ['0'] + "" == "0";
    }
    assert Split("1", "_") == ["1"] by {
      assert "1"[..1] != "_" && "1"[1..] == "";
      assert [Split("", "_")[0]] + Split("", "_")[1..] == [""];
      assert ['1'] + "" == "1";
    }
    assert Split("_0", "_") == ["", "0"] by {
      assert "_0"[..1] == "_" && "_0"[1..] == "0";
    }
    assert Split("_1", "_") == ["", "1"] by {
      assert "_1"[..1] == "_" && "_1"[1..] == "1";
    }
    assert "0_0"[..1] != "_" && "0_1"[..1] != "_";
    assert "0_0"[1..] == "_0" && "0_1"[1..] == "_1";
  }

  function OwnersOf(ms: seq<Match>): set<string> {
    set m | m in ms :: Owner(m.id)
  }

  lemma OwnersOfSnoc(ms: seq<Match>, m: Match)
    ensures OwnersOf(ms + [m]) == OwnersOf(ms) + {Owner(m.id)}
  {
    assert forall x :: x in ms + [m] <==> x in ms || x == m;
  }

  /** The evidently intended deduplication: the first match of each catalogue row. */
  function FirstByOwner(ms: seq<Match>): (d: seq<Match>)
    ensures |d| <= |ms|
  {
    if ms == [] then []
    else
      var d := FirstByOwner(ms[..|ms| - 1]);
      if Owner(ms[|ms| - 1].id) in OwnersOf(d) then d else d + [ms[|ms| - 1]]
  }

  /** Deduplicating by row keeps one match per internship, only input matches, and every
      internship the input reaches. */
  lemma {:induction false} CorrectedDedupOnePerInternship(ms: seq<Match>)
    ensures var d := FirstByOwner(ms);
      && (forall i, j :: 0 <= i < j < |d| ==> Owner(d[i].id) != Owner(d[j].id))
      && (forall m :: m in d ==> m in ms)
      && OwnersOf(d) == OwnersOf(ms)
  {
    if ms != [] {
      var init := ms[..|ms| - 1];
      var last := ms[|ms| - 1];
      CorrectedDedupOnePerInternship(init);
      var d0 := FirstByOwner(init);
      assert ms == init + [last];
      OwnersOfSnoc(init, last);
      if Owner(last.id) !in OwnersOf(d0) {
        OwnersOfSnoc(d0, last);
        var d := d0 + [last];
        forall i, j | 0 <= i < j < |d|
          ensures Owner(d[i].id) != Owner(d[j].id)
        {
          if j == |d| - 1 {
            assert d[i] == d0[i] && d0[i] in d0;
          } else {
            assert d[i] == d0[i] && d[j] == d0[j];
          }
        }
      }
    }
  }

  // ---------------------------------------------------------------- describing matches

  /** Python's `int(x)`: truncation toward zero. */
  function Trunc(x: real): (t: int)
    ensures x >= 0.0 ==> t as real <= x < t as real + 1.0
    ensures x < 0.0 ==> t as real - 1.0 < x <= t as real
  {
    if x >= 0.0 then x.Floor else -((-x).Floor)
  }

  /** `max(75, min(95, int(conf)))`. */
  function MatchScore(conf: real): (s: int)
    ensures 75 <= s <= 95
    ensures 75.0 <= conf < 96.0 ==> s as real <= conf < s as real + 1.0
  {
    Max(75, Min(95, Trunc(conf)))
  }

  /** The internship title of a chunk text `"<title> at <company> | ..."`. */
  function TitleOf(text: string): string {
    var parts := Split(text, " at ");
    if |parts| >= 2 then parts[0] else "Internship"
  }

  /** The company of a chunk text, up to the first `" |"` after the first `" at "`. */
  function CompanyOf(text: string): string {
    var parts := Split(text, " at ");
    if |parts| >= 2 then Split(parts[1], " |")[0] else "Company"
  }

  /** A chunk text without `" at "` gets the placeholder title and company; one with it gets
      the text before the first `" at "` as its title. */
  lemma TitleCompanyDefaults(text: string)
    ensures !Contains(text, " at ") ==> TitleOf(text) == "Internship" && CompanyOf(text) == "Company"
    ensures Contains(text, " at ") ==> TitleOf(text) == Split(text, " at ")[0]
  {
    if Contains(text, " at ") {
      SplitWithSeparator(text, " at ");
    } else {
      SplitNoSeparator(text, " at ");
    }
  }

  /** `extract_skills_from_text`: the comma-separated list after the last `"Skills:"` and
      before the next `"|"`, cleaned and cut to five; the default pair when there is no
      `"Skills:"`. */
  function ExtractSkills(text: string): (skills: seq<string>)
    ensures |skills| <= 5
    ensures forall k :: 0 <= k < |skills| ==> skills[k] != [] && Strip(skills[k]) == skills[k]
    ensures !Contains(text, "Skills:") ==> skills == DefaultSkills
    ensures Contains(text, "Skills:") ==>
              && skills <= StripNonEmpty(Split(SkillsSegment(text), ","))
              && |skills| == Min(5, |StripNonEmpty(Split(SkillsSegment(text), ","))|)
              && (forall s :: s in skills ==> exists p :: p in Split(SkillsSegment(text), ",") && s == Strip(p))
              && (|StripNonEmpty(Split(SkillsSegment(text), ","))| <= 5 ==>
                    forall p :: p in Split(SkillsSegment(text), ",") && Strip(p) != [] ==> Strip(p) in skills)
  {
    if Contains(text, "Skills:") then CleanSkills(SkillsSegment(text))
    else
      StripTrimmed("Communication");
      StripTrimmed("Teamwork");
      DefaultSkills
  }

  /** `text.split("Skills:")[-1].split("|")[0]`. */
  function SkillsSegment(text: string): string {
    var pieces := Split(text, "Skills:");
    Split(pieces[|pieces| - 1], "|")[0]
  }

  /** `[s.strip() for s in part.split(",") if s.strip()][:5]`. */
  function CleanSkills(part: string): (skills: seq<string>)
    ensures |skills| <= 5
    ensures forall k :: 0 <= k < |skills| ==> skills[k] != [] && Strip(skills[k]) == skills[k]
    ensures skills <= StripNonEmpty(Split(part, ","))
    ensures |skills| == Min(5, |StripNonEmpty(Split(part, ","))|)
    ensures forall s :: s in skills ==> exists p :: p in Split(part, ",") && s == Strip(p)
    ensures |StripNonEmpty(Split(part, ","))| <= 5 ==>
              forall p :: p in Split(part, ",") && Strip(p) != [] ==> Strip(p) in skills
  {
    CleanedPrefix(Split(part, ","), 5);
    var cleaned := StripNonEmpty(Split(part, ","));
    var r := PyPrefix(cleaned, 5);
    assert forall k :: 0 <= k < |r| ==> r[k] == cleaned[k];
    r
  }

  /** One recommendation from a kept match; `format` is the `{conf:.1f}` rendering. */
  function MatchEntry(m: Match, idx: nat, format: real -> string): (r: Recommendation)
    ensures r.rank == idx + 1 && r.matchScore == MatchScore(m.conf)
    ensures r.title == TitleOf(m.text) && r.company == CompanyOf(m.text)
    ensures r.skills == ExtractSkills(m.text)
  {
    Recommendation(idx + 1, CompanyOf(m.text), TitleOf(m.text), MatchScore(m.conf),
                   "Strong match based on skills and location alignment. Confidence: "
                   + format(m.conf) + "%", ExtractSkills(m.text))
  }

  function MatchList(ms: seq<Match>, format: real -> string): (r: seq<Recommendation>)
    ensures |r| == |ms|
  {
    seq(|ms|, i requires 0 <= i < |ms| => MatchEntry(ms[i], i, format))
  }

  /** The conversion loop over `enumerate(unique_matches[:num_recommendations])`. */
  method DescribeMatches(ms: seq<Match>, format: real -> string) returns (r: seq<Recommendation>)
    ensures r == MatchList(ms, format)
  {
    r := [];
    var idx := 0;
    while idx < |ms|
      invariant 0 <= idx <= |ms|
      invariant r == MatchList(ms[..idx], format)
    {
      assert ms[..idx + 1][..idx] == ms[..idx];
      r := r + [MatchEntry(ms[idx], idx, format)];
      idx := idx + 1;
    }
    assert ms[..idx] == ms;
  }

  // ---------------------------------------------------------------- the whole call

  /** The matches that get described: sorted by confidence, one per id, at most `n`. */
  function Picked(ms: seq<Match>, n: int): seq<Match> {
    PyPrefix(PyPrefix(FirstById(SortDesc(ms, ConfOf)), Max(n, 1)), n)
  }

  /** At most `n` matches are described, with distinct ids, from the lookups' hits, by
      non-increasing confidence; when fewer than `n` come out, every id that was hit is
      among them. */
  lemma PickedProperties(ms: seq<Match>, n: int)
    ensures var p := Picked(ms, n);
      && |p| <= Max(n, 0)
      && (forall i, j :: 0 <= i < j < |p| ==> p[i].id != p[j].id)
      && (forall m :: m in p ==> m in ms)
      && SortedDesc(p, ConfOf)
      && (n > 0 && |p| < n ==> IdsOf(p) == IdsOf(ms))
  {
    var sorted := SortDesc(ms, ConfOf);
    var d := FirstById(sorted);
    var p := Picked(ms, n);
    FirstByIdProperties(sorted);
    SortDescSameElements(ms, ConfOf);
    assert p <= d;
    forall m | m in p
      ensures m in ms
    {
      assert m in d;
    }
    if n > 0 && |p| < n {
      assert p == d;
      assert IdsOf(sorted) == IdsOf(ms);
    }
  }

  /** The recommendations described from the given matches are ranked 1..k and scored in
      [75, 95], with at most five cleaned skills each. */
  lemma MatchListProperties(ms: seq<Match>, format: real -> string)
    ensures var r := MatchList(ms, format);
      && DenseRanks(r)
      && forall i :: 0 <= i < |r| ==> 75 <= r[i].matchScore <= 95 && |r[i].skills| <= 5
  {
    var r := MatchList(ms, format);
    forall i | 0 <= i < |r|
      ensures r[i] == MatchEntry(ms[i], i, format)
    {
    }
  }

  /** `get_recommendations` of the vector-store backup: 400-character windows with 50 of
      overlap, each looked up with `query`, and the catalogue-order fallback when any step
      raised. How many hits a lookup returns (the source asks the store for
      `2 * num_recommendations`) is part of the given `query`. */
  method GetRecommendations(resume: Resume, n: int, catalog: seq<Posting>,
                            query: string -> Attempt<seq<Match>>, format: real -> string)
    returns (r: seq<Recommendation>)
    ensures var hits := AllMatches(Chunks(ProfileText(resume), 400, 350), query);
      && (hits.Raised? ==>
            |r| == FallbackCount(n, |catalog|)
            && forall i :: 0 <= i < |r| ==> r[i] == FallbackEntry(catalog[i], i))
      && (hits.Ok? ==> r == MatchList(Picked(hits.value, n), format))
  {
    var profile := ProfileText(resume);
    var chunks := ChunkText(profile, 400, 50);
    var hits := CollectMatches(chunks, query);
    if hits.Raised? {
      r := CatalogFallback(catalog, n);
      return;
    }
    var sorted := SortDesc(hits.value, ConfOf);
    var unique := Dedup(sorted, n);
    r := DescribeMatches(PyPrefix(unique, n), format);
  }
}
