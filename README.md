# Internship recommender: a verified model of the decision logic

This project models the deterministic core of a PM-internship recommendation service. The service has three parts:

- three retrieval-based recommenders;
- a tiered orchestrator with automatic fallback;
- a reinforcement-learning layer that learns from recruiter feedback.

It is exposed through three Flask applications. Each one validates a candidate, asks a recommender tier for suggestions and reformats them.

The recommenders are:

- **TF-IDF recommender** (`simple_backup_recommender.py`). It ranks catalogue rows by a given similarity vector and scores them with a capped ladder.
- **Generative recommender** (`rag_internship_recommender.py`). It retrieves 15 rows, asks a language model for a JSON array and extracts the outermost brackets. When the answer is unusable it falls back to a ladder over the retrieved rows.
- **Vector-store recommender** (`backup_recommender.py`). It chunks the profile text with a sliding window, queries a store per chunk, keeps the first match per chunk id after a descending sort, and clamps the confidence to 75..95.

All three build the same stripped candidate profile text with "N/A" defaults.

The orchestrator (`integrated_recommender.py`) tries the generative tier, then the TF-IDF tier, then a fixed emergency list. It tags each result with its tier.

The applications are:

- **`app_simple.py`**: a keyword tier, additive 30/40/30 scoring capped at 95, stopping after 5 rows.
- **`app_with_rag.py`**: integrated recommender, then TF-IDF, then the keyword tier over a freshly read catalogue.
- **`app.py`**:
  - loads the catalogue with sequential ids;
  - filters it;
  - reformats tier output;
  - maps user ids to UUIDs;
  - reviews applications and passes the feedback to the learner;
  - formats the learner's re-ranked list.

The learner (`reinforcement_learning.py`) is a class holding four weight tables, updated in place:

- skill weights;
- company preferences;
- location preferences;
- sector preferences.

It computes a reward from the decision and score, bumps the tables, blends them into an improved score clamped to [0,1], and ranks internships by that score.

Each source file maps to one Dafny module:

| module | file | source |
|---|---|---|
| `Text` | text.dfy | Python string operations used throughout: `lower`, `strip`, `split`, `find`/`rfind`, `str(int)`, zero padding |
| `Records` | records.dfy | the shared value types: `Option`, `Attempt` (a step that may raise), Python values and truthiness, catalogue rows, recommendation dictionaries, Python slicing |
| `Ranking` | ranking.dfy | `sorted(..., reverse=True)` as a stable sort |
| `Retrieval` | retrieval.dfy | the profile text, top-k selection, skill cleaning and catalogue fallback that the recommenders share |
| `SimpleBackup` | simple_backup.dfy | simple_backup_recommender.py |
| `RagRecommender` | rag_tier.dfy | rag_internship_recommender.py |
| `ChromaBackup` | chroma_backup.dfy | backup_recommender.py |
| `Integrated` | integrated.dfy | integrated_recommender.py |
| `FeedbackLearner` | feedback_learner.dfy | reinforcement_learning.py |
| `KeywordTier` | keyword_tier.dfy | the validation, keyword scoring and apply logic shared by app_simple.py and app_with_rag.py |
| `AppSimple` | app_simple.dfy | app_simple.py `recommend` |
| `AppWithRag` | app_with_rag.dfy | app_with_rag.py `recommend` and `get_simple_recommendations` |
| `CatalogApp` | catalog_app.dfy | app.py |

The form follows the source:

- **Classes.** State the source mutates is a class: `LearningModel`'s four tables, `IntegratedRecommender`'s two components, and `CatalogApp`'s catalogue list.
- **Loops.** Loops are methods with invariants. Each is proved equal to a specification function, and the properties are proved about that function as lemmas.
- **Parameters.** Every external effect is a parameter, and a step that may raise is an `Attempt`. External effects include the similarity vector, the language-model reply, the JSON parser, the vector-store query, the database answers and the clock.

## Model

| member | source | states |
|---|---|---|
| Text.Lower | app_simple.py:125 | `str.lower()` on ASCII: same length, each upper-case letter shifted to lower case, every other character kept |
| Text.LowerIdempotent | app.py:152-165 | lower-casing twice is lower-casing once |
| Text.LeadCount | simple_backup_recommender.py:82 | the leading-whitespace count: all counted characters are spaces and the next one is not |
| Text.TrailStart | simple_backup_recommender.py:82 | where trailing whitespace starts: everything after is space and the character before is not |
| Text.Strip | simple_backup_recommender.py:82 | `str.strip()` never lengthens and leaves no whitespace at either end, whitespace being the full set `str.isspace()` accepts (ASCII 9-13 and 28-32, NEL, NO-BREAK SPACE and the Unicode space separators) |
| Text.StripIdempotent | simple_backup_recommender.py:128 | stripping twice is stripping once |
| Text.StripTrimmed | simple_backup_recommender.py:128 | a string without whitespace at its ends is its own strip |
| Text.StripRightAppend | simple_backup_recommender.py:70-82 | right-stripping a concatenation strips only the tail, unless the tail is all whitespace |
| Text.Find | rag_internship_recommender.py:233 | `str.find`: -1 exactly when the character is absent, else its first position |
| Text.RFind | rag_internship_recommender.py:234 | `str.rfind`: -1 exactly when the character is absent, else its last position |
| Text.Split | backup_recommender.py:197 | `str.split(sep)` yields at least one piece |
| Text.SplitJoin | backup_recommender.py:197 | joining the pieces of a split with the separator gives back the string |
| Text.SplitNoSeparator | backup_recommender.py:198-203 | a string without the separator splits into itself alone |
| Text.SplitWithSeparator | backup_recommender.py:198-200 | a string containing the separator splits into at least two pieces |
| Text.SplitHeadPrefix | backup_recommender.py:197 | the first piece is a prefix of the string |
| Text.SplitPiecesFree | backup_recommender.py:197 | no piece contains the separator |
| Text.SplitAtFirst | backup_recommender.py:197-200 | with the separator present, the first piece followed by the separator starts the string and no earlier position starts the separator, so `parts[1]` follows the leftmost occurrence |
| Text.SplitRest | backup_recommender.py:197-200 | the pieces after the first are the split of the text after the leftmost separator |
| Text.NatToString | app.py:43 | `str(n)` of a natural number is a non-empty digit string with no leading zero |
| Text.ParseNatToString | app.py:43 | reading back the digits of `str(n)` gives `n` |
| Text.NatToStringInjective | app.py:41-43 | distinct numbers have distinct decimal strings |
| Text.IntToString | app_simple.py:184 | `str(i)` of an integer starts with '-' exactly when it is negative |
| Text.PadZeros | app.py:253 | left zero padding reaches the width and keeps the digits as a suffix |
| Text.FormatZeroPadded | app.py:253 | `f"{i:012d}"`: at least the width, zero-padded digits for non-negative values, a leading '-' otherwise |
| Text.NatToStringLength | app.py:253 | a number below 10^k has at most k digits |
| Records.PyPrefix | rag_internship_recommender.py:299 | Python's `s[:k]`: a prefix of length min(k, len) for k ≥ 0, and of length len+k (at least 0) for negative k |
| Records.ToDict | simple_backup_recommender.py:134-141 | a recommendation becomes a dictionary with exactly the six keys, carrying its rank and match score |
| Records.ToDicts | integrated_recommender.py:86 | the list of dictionaries corresponds entry by entry |
| Ranking.Insert | reinforcement_learning.py:286 | inserting keeps the multiset of elements and adds one |
| Ranking.InsertSorted | reinforcement_learning.py:286 | inserting into a non-increasing list keeps it non-increasing |
| Ranking.SortDesc | reinforcement_learning.py:286 | `sort(key, reverse=True)`: a permutation of the input, ordered by non-increasing key |
| Ranking.InsertWithKey | reinforcement_learning.py:286 | inserting puts the new element ahead of every element with its key and keeps the order of the others |
| Ranking.SortDescStable | reinforcement_learning.py:286 | the sort is stable: for every key value, the elements carrying it keep their input order |
| Ranking.TopNKeepsBest | reinforcement_learning.py:286-289 | an element whose key beats the n-th sorted key is among the first n |
| Ranking.SortDescNoDup | simple_backup_recommender.py:93 | sorting a duplicate-free list keeps it duplicate-free |
| Ranking.SortDescSameElements | simple_backup_recommender.py:93 | sorting keeps exactly the same elements |
| Retrieval.ProfileHead | simple_backup_recommender.py:70-80 | the profile starts with "CANDIDATE PROFILE:" and ends with the "Projects:" label line |
| Retrieval.LinesAgree | simple_backup_recommender.py:72-79 | the labelled lines depend only on the values read for their keys, with "N/A" for an absent key |
| Retrieval.ProfileTextShape | simple_backup_recommender.py:68-82 | the stripped profile is the fixed header and labels followed by the right-stripped projects value, or just the header when that value is blank |
| Retrieval.ProfileTextStarts | rag_internship_recommender.py:123-135 | the stripped profile always begins with "CANDIDATE PROFILE:" |
| Retrieval.ProfileTextAgree | backup_recommender.py:126-140 | two resumes that agree on the nine read keys (absent read as "N/A") give the same profile |
| Retrieval.DropIndent | simple_backup_recommender.py:82 | stripping removes the template's leading line break and indent |
| Retrieval.StripFramed | simple_backup_recommender.py:70-82 | stripping the indented template gives the head plus the right-stripped projects value |
| Retrieval.Indices | simple_backup_recommender.py:93 | the row positions 0..n-1 in order |
| Retrieval.SimKey | simple_backup_recommender.py:90-93 | ranking key of row i is its similarity |
| Retrieval.TopKPositions | simple_backup_recommender.py:84-95 | top-k returns distinct row positions, as many as the Python slice allows |
| Retrieval.TopKOrdered | simple_backup_recommender.py:93 | top-k positions come in non-increasing similarity |
| Retrieval.TopKKeepsBest | rag_internship_recommender.py:155 | a row left out of top-k is no more similar than the last one kept |
| Retrieval.StripNonEmpty | simple_backup_recommender.py:128 | the cleaned skill list is no longer than the pieces, each entry is non-empty and stripped, and each is the strip of some input piece |
| Retrieval.StripNonEmptyAppend | simple_backup_recommender.py:128 | cleaning keeps input order: the cleaning of a concatenation is the concatenation of the cleanings |
| Retrieval.CleanedPrefix | simple_backup_recommender.py:128 | the first n cleaned pieces each come from an input piece, and hold every non-blank piece when at most n exist |
| Retrieval.StripNonEmptyKeeps | simple_backup_recommender.py:128 | every piece with a non-blank strip appears in the cleaned list |
| Retrieval.FallbackEntry | simple_backup_recommender.py:155-162 | fallback entry idx is catalogue row idx with rank idx+1 and score 75+2*idx |
| Retrieval.FallbackCount | backup_recommender.py:238-239 | the fallback length is min(n, rows), and 0 for non-positive n |
| Retrieval.CatalogFallback | simple_backup_recommender.py:150-164 | the fallback loop returns entry i for every i below min(n, len(df)) |
| Retrieval.FallbackScores | backup_recommender.py:235-249 | fallback ranks are dense, scores start at 75, strictly increase and are not capped (the 12th is 97) |
| SimpleBackup.LadderScore | simple_backup_recommender.py:123-124 | min(75+3*idx, 95) lies in [75,95] and reaches 95 exactly from position 7 |
| SimpleBackup.LadderMonotone | simple_backup_recommender.py:123-124 | the ladder never decreases along the list |
| SimpleBackup.HighlightSkills | simple_backup_recommender.py:127-128 | the first min(5, n) of the cell's n non-blank stripped pieces (the default pair for an empty cell), in order: each is the strip of a piece, and every non-blank piece is kept when at most five exist |
| SimpleBackup.SimilarEntry | simple_backup_recommender.py:119-141 | entry idx carries rank idx+1, the ladder score, the row's company and title and its cleaned skills |
| SimpleBackup.SelectionProperties | simple_backup_recommender.py:115-119 | the rows used are at most n distinct positions in non-increasing similarity |
| SimpleBackup.SelectionIsTopK | simple_backup_recommender.py:115-119 | taking top-2n and then its first n is the same as top-n |
| SimpleBackup.GetRecommendations | simple_backup_recommender.py:97-148 | a raising similarity step yields the catalogue fallback; otherwise entry i describes the i-th selected row |
| SimpleBackup.SimilarList | simple_backup_recommender.py:119 | one entry per selected position |
| SimpleBackup.SimilarListAt | simple_backup_recommender.py:119-141 | entry i of the list describes selected row i |
| SimpleBackup.DescribeSelection | simple_backup_recommender.py:118-141 | the append loop builds entry i from selected row i |
| SimpleBackup.SimilarListProperties | simple_backup_recommender.py:118-141 | ranks are dense, scores lie in [75,95] and do not decrease, and each entry has at most 5 skills |
| RagRecommender.Slice | rag_internship_recommender.py:236 | `s[a:b]` with Python's empty result when a > b |
| RagRecommender.ExtractJson | rag_internship_recommender.py:226-239 | a candidate exists exactly when both '[' and ']' occur, and it is bracketed at both ends |
| RagRecommender.ExtractJsonOutermost | rag_internship_recommender.py:229-237 | the candidate always runs from the first '[' through the last ']' (which also covers the already-bracketed case) |
| RagRecommender.AnswerItems | rag_internship_recommender.py:221-245 | the reply is used exactly when it exists, has a bracketed part, parses, and is a non-empty list |
| RagRecommender.RagFallbackEntry | rag_internship_recommender.py:258-270 | entry idx has rank idx+1 and score min(75+2*idx, 95), within [75,95] |
| RagRecommender.RagFallbackList | rag_internship_recommender.py:255-271 | one entry per row |
| RagRecommender.RagFallback | rag_internship_recommender.py:255-271 | the append loop builds the fallback list |
| RagRecommender.RagFallbackProperties | rag_internship_recommender.py:250-271 | the fallback covers the first min(5, retrieved) rows, with dense ranks and strictly increasing scores in [75,83] |
| RagRecommender.GeneratedNonEmpty | rag_internship_recommender.py:223-253 | the generated list is non-empty exactly when the reply is usable or some row was retrieved |
| RagRecommender.GenerateWithLlm | rag_internship_recommender.py:159-253 | reply items when usable, otherwise the fallback over the first five retrieved rows |
| RagRecommender.RowsAt | rag_internship_recommender.py:171 | `df.iloc[indices]`: row i is the catalogue row at selected position i |
| RagRecommender.RecommendInternships | rag_internship_recommender.py:273-306 | the result carries the profile, the catalogue size, the clock reading, and the generated list over the top 15 rows cut to n |
| RagRecommender.RecommendationsBounded | rag_internship_recommender.py:291-299 | retrieval takes at most 15 in-range rows and the answer has at most n entries |
| ChromaBackup.ChunkCount | backup_recommender.py:119-123 | the number of windows is 0 exactly for empty text |
| ChromaBackup.ChunkCountCeiling | backup_recommender.py:117-124 | for non-empty text the count is the ceiling of len/step |
| ChromaBackup.Window | backup_recommender.py:120-121 | `text[start:start+size]` is a prefix of the text from start; for size >= 0 it is min(size, len-start) long; for a negative end inside the text it is empty; for an end before 0 it counts from the back and is max(0, len+size) long |
| ChromaBackup.OffsetIsProduct | backup_recommender.py:123 | after i steps the start is i*step |
| ChromaBackup.OffsetInside | backup_recommender.py:119 | every chunk start lies inside the text |
| ChromaBackup.Chunks | backup_recommender.py:115-124 | as many chunks as windows |
| ChromaBackup.ChunkText | backup_recommender.py:115-124 | an empty text gives no chunks whatever the sizes; with chunk_size > overlap the while loop with step chunk_size-overlap produces exactly the specified chunks |
| ChromaBackup.ChunksProperties | backup_recommender.py:115-124 | empty text gives no chunks; chunk i is the stripped window at i*step, at most chunk_size long (at most len+chunk_size for a negative chunk_size); the count is the ceiling of len/step |
| ChromaBackup.NegativeSizeChunks | backup_recommender.py:115-124 | `chunk_text("abcdef", -1, -5)` advances by 4 and yields "abcde" and then "" |
| ChromaBackup.RaisedPersists | backup_recommender.py:167-168 | once a chunk query raises, the collection raises with that error |
| ChromaBackup.CollectMatches | backup_recommender.py:165-180 | the query loop gathers the matches of every chunk in order, or the first error |
| ChromaBackup.FirstById | backup_recommender.py:184-189 | first-occurrence dedup never lengthens the list |
| ChromaBackup.FirstByIdPrefix | backup_recommender.py:184-191 | the dedup of a prefix is a prefix of the dedup, so stopping early keeps the first matches |
| ChromaBackup.FirstByIdIds | backup_recommender.py:184-189 | dedup keeps only input matches and loses no id |
| ChromaBackup.FirstByIdUnique | backup_recommender.py:184-189 | after dedup every chunk id appears once |
| ChromaBackup.FirstByIdSorted | backup_recommender.py:183-189 | dedup of a descending list stays descending |
| ChromaBackup.FirstByIdProperties | backup_recommender.py:183-191 | unique ids, no new matches, the same id set, and descending order kept |
| ChromaBackup.FirstByIdKeepsFirst | backup_recommender.py:186-188 | the first match carrying an id is the one kept |
| ChromaBackup.Dedup | backup_recommender.py:184-191 | the loop with the seen-set and the break keeps the first max(n,1) deduplicated matches |
| ChromaBackup.Trunc | backup_recommender.py:206 | `int(x)` truncates toward zero |
| ChromaBackup.MatchScore | backup_recommender.py:206 | max(75, min(95, int(conf))) lies in [75,95] and is the truncated confidence inside that band |
| ChromaBackup.TitleCompanyDefaults | backup_recommender.py:197-203 | without " at " the title and company are "Internship" and "Company"; with it the title is the text before the first " at " |
| ChromaBackup.ExtractSkills | backup_recommender.py:224-233 | ["Communication", "Teamwork"] when "Skills:" is absent; otherwise the first min(5, n) of the segment's n non-blank stripped comma pieces, in order, each the strip of a piece, and all of them when at most five exist |
| ChromaBackup.CleanSkills | backup_recommender.py:228-230 | the first min(5, n) of the part's n non-blank stripped comma pieces, in order: each is the strip of a piece, and every non-blank piece is kept when at most five exist |
| ChromaBackup.MatchEntry | backup_recommender.py:195-215 | entry idx has rank idx+1, the clamped score, the split title and company and the extracted skills |
| ChromaBackup.MatchList | backup_recommender.py:194-215 | one entry per kept match |
| ChromaBackup.DescribeMatches | backup_recommender.py:194-215 | the append loop builds the entries |
| ChromaBackup.PickedProperties | backup_recommender.py:183-195 | at most n matches with distinct ids in descending confidence, all from the query; every id is covered when fewer than n remain |
| ChromaBackup.MatchListProperties | backup_recommender.py:195-215 | ranks are dense, scores lie in [75,95] and skills number at most 5 |
| ChromaBackup.AsWrittenDedupRepeatsInternship | backup_recommender.py:97-101 | two chunks "0_0" and "0_1" of one catalogue row both survive the dedup, so the row is recommended twice |
| ChromaBackup.FirstByOwner | backup_recommender.py:184-189 | the intended dedup by catalogue row never lengthens the list |
| ChromaBackup.CorrectedDedupOnePerInternship | backup_recommender.py:184-189 | deduplicating by the row part of the chunk id keeps one match per internship, only input matches, and every internship reached |
| ChromaBackup.GetRecommendations | backup_recommender.py:142-222 | a raising query gives the catalogue fallback; otherwise the entries describe the sorted, deduplicated matches over the profile chunks of 400 with overlap 50 |
| Integrated.EmergencyEntry | integrated_recommender.py:102-109 | entry i has rank i+1, score 70 and no skills |
| Integrated.EmergencyCount | integrated_recommender.py:101 | `len(range(min(3, n)))`: at most 3, and min(3, n) for non-negative n |
| Integrated.EmergencyList | integrated_recommender.py:100-109 | one entry per counted position |
| Integrated.EmergencyRecommendations | integrated_recommender.py:100-109 | the emergency loop builds the emergency list |
| Integrated.EmergencyListProperties | integrated_recommender.py:100-109 | min(3, n) entries (0 for n ≤ 0), dense ranks, score 70, no skills, companies "Company 1".. |
| Integrated.PrimaryResult | integrated_recommender.py:68-72 | the primary result is tagged 'primary' with fallback_used False and keeps its list |
| Integrated.ChainTags | integrated_recommender.py:64-118 | results are tagged with their tier and flag fallback exactly off the primary tier; a successful primary wins; otherwise the backup answers when present and the clock reads; the emergency tier reports 0 analysed and min(3, n) entries |
| Integrated.ChainWithClockNeverRaises | integrated_recommender.py:96-118 | with a readable clock the chain always answers |
| Integrated.AsWrittenFallbackRaises | integrated_recommender.py:77-121 | as written, whenever the primary tier is absent or raises, the call raises "❌ All recommendation systems failed completely!" |
| Integrated.IntegratedRecommender.constructor | integrated_recommender.py:20-22 | both components start absent |
| Integrated.IntegratedRecommender.SetupRecommenders | integrated_recommender.py:25-49 | the primary is built only with an API key; a failing construction leaves a component absent; the call raises "❌ No recommendation system available!" exactly when neither is present |
| Integrated.IntegratedRecommender.RecommendInternships | integrated_recommender.py:51-121 | the method computes the tier chain over the present components |
| Integrated.IntegratedRecommender.SystemStatus | integrated_recommender.py:155-180 | availability is reported exactly as "component present"; the TF-IDF backup is always ready with one count per catalogue row |
| FeedbackLearner.Reward | reinforcement_learning.py:83-96 | for scores in [0,10], an acceptance earns a reward in [0,1] and a rejection one in [-0.5,0]; positive exactly when an accepted score is positive, negative exactly when a rejected score is below 10 |
| FeedbackLearner.RewardMonotone | reinforcement_learning.py:83-96 | a higher feedback score never lowers the reward, for either decision |
| FeedbackLearner.ElemSetSize | reinforcement_learning.py:111-112 | the set of a list is no larger than the list and non-empty for a non-empty list |
| FeedbackLearner.StripLowerAll | reinforcement_learning.py:174-175 | each skill piece is stripped and lower-cased, position by position |
| FeedbackLearner.SkillList | reinforcement_learning.py:302-303 | a comma-split skill list is never empty |
| FeedbackLearner.OriginalScore | reinforcement_learning.py:98-117 | the score lies in [0,1] and is the number of distinct skills shared over the number of distinct required skills (never zero, since splitting yields at least one piece) |
| FeedbackLearner.Overlap | reinforcement_learning.py:107-117 | the share of distinct required pieces held lies in [0,1] and, for non-empty lists, is the shared count over the distinct required count |
| FeedbackLearner.OriginalScoreExtremes | reinforcement_learning.py:104-117 | the score is 1 exactly when every distinct required skill is listed, and 0 exactly when none is |
| FeedbackLearner.Share | reinforcement_learning.py:117 | part/whole lies in [0,1], is 1 exactly when part equals whole and 0 exactly when part is 0 |
| FeedbackLearner.OriginalScoreOfEmptyRequirement | reinforcement_learning.py:104-117 | with empty required skills, ''.split(', ') is [''], so the score is 1 or 0 depending on whether the candidate list holds an empty piece, never the 0.5 default |
| FeedbackLearner.SkillAlignment | reinforcement_learning.py:354-365 | alignment lies in [0,1] |
| FeedbackLearner.Alignment | reinforcement_learning.py:360-365 | for a non-empty requirement, the distinct shared pieces over the length of the required list |
| FeedbackLearner.SkillAlignmentValue | reinforcement_learning.py:356-365 | alignment is \|set(candidate) & set(required)\| / len(required) over the stripped, lower-cased comma pieces |
| FeedbackLearner.SkillAlignmentExtremes | reinforcement_learning.py:356-365 | alignment is 1 exactly when every required piece is held and none repeats, 0 exactly when no required piece is held |
| FeedbackLearner.AlignmentExtremes | reinforcement_learning.py:363-365 | the same two characterisations over the cleaned lists |
| FeedbackLearner.SkillAlignmentMonotone | reinforcement_learning.py:356-365 | a candidate holding more distinct skills never gets a lower alignment |
| FeedbackLearner.AlignmentMonotone | reinforcement_learning.py:363-365 | the same monotonicity over the cleaned lists |
| FeedbackLearner.GapActions | reinforcement_learning.py:138-140 | three actions per gap skill |
| FeedbackLearner.AreaActions | reinforcement_learning.py:143-145 | three actions per improvement area |
| FeedbackLearner.ExpandAt | reinforcement_learning.py:137-145 | the expanded list has 3 entries per item, and entry 3i+j is action j of item i |
| FeedbackLearner.ExpandLength | reinforcement_learning.py:137-145 | the expanded list has 3 entries per item |
| FeedbackLearner.RecommendedActions | reinforcement_learning.py:131-147 | the loop returns the gap actions then the area actions cut to 10, so min(10, 3*(gaps+areas)) entries, with each gap's course action at position 3i |
| FeedbackLearner.Distinct | reinforcement_learning.py:154 | the distinct skills, each once, with the same membership as the input |
| FeedbackLearner.SkillsOf | reinforcement_learning.py:158-163 | the skill of each priority entry, in order |
| FeedbackLearner.Entry | reinforcement_learning.py:158-163 | frequency is the count; priority is 'high' exactly for a count above 1, else 'medium'; category is 'gap' exactly for a gap skill, else 'improvement' |
| FeedbackLearner.PrioritizeSkills | reinforcement_learning.py:149-165 | every listed skill appears exactly once with its entry, in non-increasing frequency; skills of equal frequency keep the order in which they are first named, as `Counter.most_common` does |
| FeedbackLearner.LowerAll | reinforcement_learning.py:179 | each key lower-cased, position by position |
| FeedbackLearner.BumpAllSnoc | reinforcement_learning.py:178-183 | one more loop step bumps one more key |
| FeedbackLearner.LowerAllSnoc | reinforcement_learning.py:178-179 | lower-casing distributes over appending |
| FeedbackLearner.BumpAllKeys | reinforcement_learning.py:178-191 | after the loop a key is present exactly when it was present or was bumped |
| FeedbackLearner.Times | reinforcement_learning.py:181 | n repeated increments add delta*n |
| FeedbackLearner.TimesSign | reinforcement_learning.py:181 | repeated increments share the sign of delta |
| FeedbackLearner.BumpAllAt | reinforcement_learning.py:178-183 | each key gains delta times the number of its occurrences, starting from 0 when new |
| FeedbackLearner.SkillWeightAfterUpdate | reinforcement_learning.py:178-191 | a skill weight gains lr*reward per gap occurrence and half that per strength occurrence; the key set grows by exactly the bumped skills |
| FeedbackLearner.PreferencesAfterUpdate | reinforcement_learning.py:193-215 | only the lower-cased company, location and sector keys change, each by lr*reward, and only when non-empty; every other key keeps its value |
| FeedbackLearner.FeedbackNotIdempotent | reinforcement_learning.py:178-183 | processing the same feedback twice doubles the change, so the update is not idempotent |
| FeedbackLearner.PositiveFeedbackRaisesGapWeight | reinforcement_learning.py:178-183 | a positive reward strictly raises every gap skill's weight |
| FeedbackLearner.MatchedCount | reinforcement_learning.py:307-308 | the number of matched required skills is at most the number required |
| FeedbackLearner.Clamp01 | reinforcement_learning.py:341 | the clamp lies in [0,1] and leaves values in [0,1] unchanged |
| FeedbackLearner.ImprovedScore | reinforcement_learning.py:295-341 | the improved score lies in [0,1] and equals the 0.4/0.2/0.2/0.2 blend whenever the blend is in range |
| FeedbackLearner.SkillSumUnlearned | reinforcement_learning.py:305-315 | with no learned weights, a matched skill counts 1 and a missing one 0.3*0.5 |
| FeedbackLearner.ColdStartScore | reinforcement_learning.py:295-341 | an untrained model scores 0.3 + 0.4 times the default skill share, always within [0.36, 0.7] |
| FeedbackLearner.ScoreMonotoneInCompany | reinforcement_learning.py:321-341 | raising the company preference never lowers the improved score |
| FeedbackLearner.FirstAcceptanceLowersCompanyPreference | reinforcement_learning.py:196-199 | as written, a first positive feedback about an unseen company sets its preference to at most 0.1, below the 0.5 default |
| FeedbackLearner.BumpFromDefault | reinforcement_learning.py:196-199 | the corrected bump adds delta to the effective (default 0.5) preference and touches no other key |
| FeedbackLearner.CorrectedFeedbackNeverLowersPreferences | reinforcement_learning.py:193-215 | with the corrected bump, a non-negative reward never lowers any effective preference, and a positive one raises the company's |
| FeedbackLearner.Confidence | reinforcement_learning.py:380-392 | the level is high, medium or low; 'high' exactly when alignment > 0.8 and more than 3 feedbacks; otherwise 'medium' exactly when alignment > 0.6 and more than 1 feedback; 'low' in every other case |
| FeedbackLearner.ConfidenceMonotone | reinforcement_learning.py:384-392 | more alignment and more feedback never lower the confidence level |
| FeedbackLearner.CalculateConfidence | reinforcement_learning.py:380-392 | with the skill alignment of the profile and the internship and the recorded feedback count (0 when absent): 'high' exactly when alignment > 0.8 and count > 3, 'medium' exactly when not high and alignment > 0.6 and count > 1, else 'low' |
| FeedbackLearner.Per | reinforcement_learning.py:418 | the ratio with a divisor of at least 1 is between 0 and the numerator |
| FeedbackLearner.LearningProgress | reinforcement_learning.py:413-421 | the improvement rate is between 0 and the number of common gaps; consistency is at most 1 and equals 1 exactly from 5 feedbacks; quality is in [0,1] for averages in [0,10] |
| FeedbackLearner.LearningRecommendations | reinforcement_learning.py:423-438 | each of the three pieces of advice appears exactly when its threshold is crossed, in order, at most three |
| FeedbackLearner.InternshipsOf | reinforcement_learning.py:289 | the internships of a ranked list, position by position |
| FeedbackLearner.AddToEach | reinforcement_learning.py:178-191 | the per-skill loop bumps every lower-cased skill by delta |
| FeedbackLearner.AddToNamed | reinforcement_learning.py:194-215 | bumps one named preference by delta, or nothing when the lower-cased name is empty |
| FeedbackLearner.NumericScore | reinforcement_learning.py:90-95 | only an int or bool score survives the arithmetic; None or a string raises |
| FeedbackLearner.LearningModel.constructor | reinforcement_learning.py:20-28 | all four tables start empty |
| FeedbackLearner.LearningModel.UpdateModel | reinforcement_learning.py:167-220 | the tables become the update of the old tables by the reward, the gaps, the strengths and the internship |
| FeedbackLearner.LearningModel.ProcessFeedback | reinforcement_learning.py:30-81 | succeeds exactly when the application exists and the score is numeric; then the tables are updated with the decision's reward; otherwise they are unchanged |
| FeedbackLearner.LearningModel.GetImprovedRecommendations | reinforcement_learning.py:261-293 | empty without a candidate id or when the insights lookup raises; otherwise the top n internships by improved score under the current tables |
| FeedbackLearner.ScoreEach | reinforcement_learning.py:277-283 | the loop scores each internship in order |
| FeedbackLearner.ScoreAll | reinforcement_learning.py:277-283 | scored entry k is internship k with its score |
| FeedbackLearner.TopScored | reinforcement_learning.py:286-289 | min(n, len) entries in non-increasing score, drawn from the scored catalogue without repetition beyond its own (a sub-multiset) |
| FeedbackLearner.InternshipsOfPermutation | reinforcement_learning.py:286 | reordering scored entries reorders their internships the same way (equal multisets) |
| FeedbackLearner.InternshipsOfScoreAll | reinforcement_learning.py:277-283 | the internships of the scored list are the catalogue itself |
| FeedbackLearner.ImprovedScorer | reinforcement_learning.py:278 | the scoring function is the improved score under the given tables |
| FeedbackLearner.TopScoredEntries | reinforcement_learning.py:277-289 | each returned entry is an input internship carrying its own score, and no internship is returned more often than the catalogue holds it |
| FeedbackLearner.TopScoredKeepsBest | reinforcement_learning.py:286-289 | an internship scoring above the last returned one is returned |
| FeedbackLearner.TopImprovedEntries | reinforcement_learning.py:261-289 | the improved list has min(n, len) input internships in non-increasing improved score, each in [0,1], as a sub-multiset of the catalogue |
| FeedbackLearner.TopImprovedKeepsBest | reinforcement_learning.py:286-289 | no omitted internship outscores the last one returned |
| FeedbackLearner.ImprovedMatchScore | app.py:498 | int(score*100) lies in [0,100] and is the floor of score*100 |
| KeywordTier.KeywordScore | app_simple.py:137-144 | the additive score is at most 100 and is 0 exactly when no keyword group fires |
| KeywordTier.RowScore | app_simple.py:151 | the emitted score is min(sum, 95), one of 0, 30, 40, 60, 70 or 95 |
| KeywordTier.CandidateKeywordListsEveryRow | app_with_rag.py:239-244 | a candidate naming a language or data keyword gets every row listed with score at least 30 |
| KeywordTier.NonBlank | app_simple.py:153 | the highlighted skills are exactly the pieces with a non-blank strip |
| KeywordTier.ListedRows | app_simple.py:146 | only rows with a positive score are listed |
| KeywordTier.ListedRowsPrefix | app_simple.py:129-131 | listing a prefix gives a prefix of the listing, so the break keeps the first listed rows |
| KeywordTier.ListedRowsComplete | app_simple.py:146 | every row with a positive score is listed |
| KeywordTier.ListedRowsAll | app_simple.py:141-146 | when a skill keyword fires every row is listed |
| KeywordTier.KeywordEntry | app_simple.py:147-154 | entry idx has rank idx+1, the row's 'Company' and title, and the capped score |
| KeywordTier.Entries | app_simple.py:147-154 | entry i describes listed row i |
| KeywordTier.ListedRowsSnoc | app_simple.py:129-146 | one more row is listed exactly when it scores |
| KeywordTier.EntriesSnoc | app_simple.py:147-148 | one more entry has the next rank |
| KeywordTier.MatchKeywords | app_simple.py:125-154 | the scoring loop with the break at 5 returns the first five listed rows as entries |
| KeywordTier.KeywordListProperties | app_with_rag.py:223-252 | at most 5 entries, dense ranks, scores among 30/40/60/70/95, the lower-cased non-blank skill pieces; with fewer than 5, every scoring row is present |
| KeywordTier.KeywordListFirstRows | app_simple.py:129-154 | when a skill keyword fires the list is the first min(5, rows) catalogue rows |
| KeywordTier.MissingField | app_simple.py:119-122 | no field is missing exactly when name, education and skills are all truthy; otherwise a falsy one among them is named |
| KeywordTier.CheckRequired | app_with_rag.py:173-176 | the validation loop reports the first falsy required field |
| KeywordTier.LoweredSkills | app_simple.py:125 | `.get('skills', '').lower()` succeeds exactly for a string or an absent key |
| KeywordTier.KeywordResponseCases | app_simple.py:112-168 | 400 exactly for a missing field; 500 exactly when skills is not a string; otherwise the full catalogue size, the tier tag, fallback_used, at most 5 entries with dense ranks and listed scores |
| KeywordTier.ApplyInternship | app_simple.py:171-188 | 400 "Missing internship_id or user_id" exactly when either is falsy; otherwise the id starts with "APP-" and ends with "-" and the user id |
| KeywordTier.DashSplit | app_with_rag.py:282 | a digit-only head before a dash is recovered uniquely |
| KeywordTier.ApplicationIdInjective | app_with_rag.py:276-282 | for positive integer ids, the application id determines the internship and user ids |
| AppSimple.Recommend | app_simple.py:112-168 | the handler validates, lowers the skills, runs the scoring loop and answers as the keyword response tagged 'backup' |
| AppWithRag.AsResume | app_with_rag.py:185 | the request read as a resume, every value as `str()` shows it |
| AppWithRag.BackupResult | app_with_rag.py:196-205 | the TF-IDF answer is tagged 'backup' with fallback_used and the catalogue size |
| AppWithRag.Recommend | app_with_rag.py:166-266 | the handler computes the specified outcome over validation, the integrated call, the TF-IDF recommender and the keyword tier |
| AppWithRag.TierOrder | app_with_rag.py:172-213 | 400 exactly for a missing field; a successful integrated call wins; then the TF-IDF recommender; then the 'simple' keyword tier with at most 5 entries, or 500 |
| AppWithRag.IntegratedFallbackNeverAnswers | app_with_rag.py:182-207 | as written, when the generative tier fails, the integrated recommender raises and the app's own TF-IDF recommender answers |
| CatalogApp.MakeRecord | app.py:40-60 | record k gets id k and internshipId "PMIS-2025-k" with the row's company and title |
| CatalogApp.RecordsOf | app.py:38-61 | row i becomes record i+1 |
| CatalogApp.RecordsOfSnoc | app.py:39-61 | one more row appends the next-numbered record |
| CatalogApp.RecordIdsUnique | app.py:41-43 | ids are 1..N in row order and internshipIds are pairwise distinct |
| CatalogApp.GetField | app.py:112-119 | `rec.get(key, default)` |
| CatalogApp.FormatAll | app.py:108-121 | formatted entry i reformats input i with rank i+1 |
| CatalogApp.FormatRecommendations | app.py:108-123 | the reformatting loop builds the formatted list |
| CatalogApp.FormatTierRecommendation | app.py:109-121 | a tier entry keeps its company, title, score, reasoning and skills, gets rank i+1, and gets defaults '' / '' / 1 for location, sector and opportunities |
| CatalogApp.GetRecommendations | app.py:86-127 | [] without a recommender, on an exception, or without 'recommendations'; otherwise the reformatted list |
| CatalogApp.FormatAllRanks | app.py:111 | reformatted ranks are 1..n whatever the input ranks were |
| CatalogApp.Keep | app.py:162-177 | a list comprehension keeps only elements satisfying the filter, never more than the input |
| CatalogApp.KeepIsSubseq | app.py:162-177 | a comprehension filter yields a subsequence of its input |
| CatalogApp.SubseqPrefix | app.py:180 | a prefix of a subsequence is a subsequence |
| CatalogApp.KeepAll | app.py:161-177 | a filter everyone passes changes nothing |
| CatalogApp.KeepKeep | app.py:161-177 | two successive filters equal the filter by their conjunction |
| CatalogApp.KeepComplete | app.py:162-177 | every element satisfying the filter is kept |
| CatalogApp.FilterChainIsConjunction | app.py:159-180 | the chain of four optional filters and the limit is one filter by the conjunction of the active conditions, then the slice |
| CatalogApp.FilterChainProperties | app.py:159-180 | the result is a subsequence of the catalogue, every entry matches the query, the length is at most the limit, and nothing matching is lost when the limit allows |
| CatalogApp.FilterOptions | app.py:183-189 | a value is offered as a state, sector or specialisation exactly when it is non-empty and some catalogue record carries it in that field |
| CatalogApp.OptionsFromCatalogue | app.py:184-186 | a value is an offered state, sector or specialisation exactly when some catalogue position holds it, non-empty, in that field |
| CatalogApp.UuidShape | app.py:251-253 | an integer id below 10^12 maps to a 36-character string with the fixed prefix |
| CatalogApp.ParseZeros | app.py:253 | zero padding reads as 0 |
| CatalogApp.ParseLeadingZeros | app.py:253 | leading zeros do not change a number's digits' value |
| CatalogApp.UuidInjective | app.py:251-253 | distinct integer ids below 10^12 map to distinct UUIDs |
| CatalogApp.TrueCountsAsOne | app.py:251 | `isinstance(True, int)` holds, so a boolean True id maps to the UUID of 1 |
| CatalogApp.FindInternship | app.py:245 | the found record is the first one with the requested internshipId; none is found exactly when no record has it |
| CatalogApp.Apply | app.py:233-292 | 400 exactly when an id is falsy; otherwise 404 exactly when no record has the internshipId and success exactly when one has it; a success carries the UUID-mapped candidate and the first such record's id, company and title |
| CatalogApp.ReviewResponse | app.py:351-409 | 400 exactly for a decision other than 'accepted'/'rejected'; success exactly when the decision is valid, the database is connected, the status update succeeds and feedback is created |
| CatalogApp.ReviewApplication | app.py:351-409 | the handler answers as specified and the learner's tables change only as the specified review effect says |
| CatalogApp.InvalidDecisionChangesNothing | app.py:363-364 | an invalid decision answers the same whatever the database does and leaves the learner unchanged |
| CatalogApp.AsWrittenReviewWithoutScoreLearnsNothing | app.py:360-403 | as written, a valid review without recommendation_score succeeds but leaves the learner's tables unchanged |
| CatalogApp.ScoreOrDefault | reinforcement_learning.py:37 | the intended default: an absent score reads as 5 |
| CatalogApp.CorrectedReviewLearns | app.py:380-395 | with the default applied, a valid review updates the tables with the reward of the decision and score (5 when absent) |
| CatalogApp.FormatImproved | app.py:494-506 | an improved entry gets rank i+1, a percentage in [0,100], the scored internship's company and title, and an empty skills_to_highlight, because the learner's insights carry no 'strengths_to_highlight' key |
| CatalogApp.FormatImprovedAll | app.py:492-507 | entry k formats ranked item k |
| CatalogApp.FormatImprovedRecommendations | app.py:492-507 | the formatting loop builds the formatted list |
| CatalogApp.FormatImprovedProperties | app.py:492-507 | ranks are dense; each percentage is the floor of score*100 in [0,100]; percentages do not increase down the list |
| CatalogApp.CatalogApp.constructor | app.py:26-27 | the catalogue starts empty |
| CatalogApp.CatalogApp.LoadInternshipsFromCsv | app.py:30-66 | succeeds exactly when the read does; then the catalogue is the numbered records, otherwise it keeps its old contents |
| CatalogApp.CatalogApp.GetInternships | app.py:148-195 | the listing is the catalogue records matching every given filter, in catalogue order, cut by Python's `[:limit]`: a subsequence, each matching, at most limit of them, and every match kept when the limit allows; the options are those of the whole catalogue |
| CatalogApp.CatalogApp.ImprovedRecommendations | app.py:466-520 | without learned results the answer is the fallback of `get_recommendations` (the reformatted tier list, or [] without one); otherwise it is exactly the learner's top five formatted with dense ranks and floor percentages, with the catalogue size |

## Left out

- Flask routing, request and JSON handling, CORS and static-file serving in app.py, app_simple.py and app_with_rag.py. A request is a map from keys to Python values. `request.json` that is not a dictionary is not modelled.
- The health, system-status, user-profile and internship-listing handlers of app_simple.py and app_with_rag.py. They only forward data or filter a pandas frame; only `recommend` and `apply_internship` carry decision logic.
- app.py's `/api/recommend` wrapper (400 for empty data, 404 for an empty list). Only the `get_recommendations` helper it calls is modelled.
- app.py's database-only handlers: pending applications, candidate applications, feedback, dashboard, learning summary, feedback history.
- `initialize_rag_recommender` and app_with_rag.py's lazy `get_recommender`. Whether each recommender object exists is a parameter.
- pandas CSV reading. The catalogue is a given sequence of rows. A missing cell is read as an absent preferred-skills value or an empty string.
- NaN cells, which pandas turns into floats; the model treats every cell as text.
- Every clock reading (`pd.Timestamp.now()`, `datetime.now()`). Each is a parameter, an `Attempt` where the read can fail.
- TF-IDF vectorisation and cosine similarity (scikit-learn). The similarity vector is a parameter.
- The exact tie order of `np.argsort`, which is not stable. The model uses a stable sort, so the proved properties are the top-k membership and order facts, which hold for any tie order.
- The OpenRouter HTTP call and `json.loads`. The reply is an optional string and the parser a given partial function.
- The prompt text built for the language model.
- The ChromaDB collection, Ollama embeddings and the distance-to-confidence normalisation. The per-chunk query is a given function returning matches with confidences or raising.
- `populate_chromadb` and the vector-store setup.
- The confidence's one-decimal rendering in the reasoning text, which is a formatting function parameter.
- Supabase persistence and asyncio. Connection state, status updates, feedback creation and the application lookup are parameters.
- `_update_candidate_profile`, `_generate_improvements` and the saved learning record. These only reach the database.
- `_get_recommendation_insights` and `_check_improvement_areas`. Their output only decorates the returned dictionaries; confidence is modelled on its own.
- `get_learning_summary`'s database wrapper. Its two computations, `LearningProgress` and `LearningRecommendations`, are modelled.
- `discount_factor` and `epsilon`. They are constants the source declares but never uses.
- `str(resume_data)` in the emergency tier, given as the `resumeRepr` parameter.
- Parse errors of `int(request.args.get('limit'))`. The limit is an integer.
- The `uuid4` application id when the database is disconnected (randomness).
- Display and printing functions, logging, test functions and `main` in every file.
- config.py, web_interface.py, supabase_client.py and the setup, fix and run scripts. These are not part of this model.
- FeedbackLearner.ImprovedMatchScore: requires a score in [0,1], which `_calculate_improved_score` guarantees by clamping.
- FeedbackLearner.ImprovedMatchScore: Python floats are modelled as exact reals, so results that depend on binary rounding differ: `int(0.29 * 100)` is 28 in Python (0.29*100 is 28.999999999999996) while the model's floor of the exact product is 29. Every other float computation (shares, rewards, preference weights, confidence) is exact in the model for the same reason.
- Text.Lower: folds only ASCII letters. Python's `str.lower()` also folds non-ASCII letters ('É' to 'é'), and "İ".lower() is the two characters "i̇", so a skill such as "Aİ" contains "ai" after lowering in app_simple.py:143 but not in the model.
- RagRecommender.AnswerItems: the parsed JSON is either a list of dictionaries or `JOther`. A non-empty list holding a non-dictionary (for instance `[1, 2]`) is represented as `JOther`, so the model answers with the fallback list where `get_recommendations` returns that list unchanged (and a caller such as app.py:112 then raises on `rec.get`).
- FeedbackLearner.NumericScore: the feedback score is a `PyValue` without floats; a float score such as 7.5 (reward 0.75 for 'accepted') is not representable, only integers, booleans, strings and None.
- FeedbackLearner.LearningModel.ProcessFeedback: the candidate profile's 'skills' value is a string; a list-valued 'skills' makes `.lower()` raise at reinforcement_learning.py:59, so `process_feedback` returns False with the tables unchanged, which the model does not represent.
- CatalogApp.FormatImproved: requires a score in [0,1] for the same reason.
- CatalogApp.FormatImproved: omits the "reasoning" text (app.py:499, the score rendered with two decimals) and the learning-insight decorations, which only format values the model already holds.
- CatalogApp.Row: keeps only the catalogue cells the endpoints read. The display-only cells app.py copies into its answers (area/field, district, benefits, candidates already applied, tag, description, qualification, village, ZIP code) are not modelled.
- ChromaBackup.ChunkText: requires chunk_size > overlap for a non-empty text, because otherwise the source's loop never ends (the start never advances past the text). The source's callers pass 300/50 and 400/50.

## Findings

| source | as written | input that shows it | evidently intended | confidence | as-written member | corrected member |
|---|---|---|---|---|---|---|
| integrated_recommender.py:89 | the backup and emergency tiers call `pd.Timestamp.now()`, but the module never imports pandas, so both raise a NameError and the call raises "❌ All recommendation systems failed completely!" | no API key configured (primary absent) and a working TF-IDF recommender | the TF-IDF tier answers with method 'backup', and the emergency tier answers when that fails | not executed | Integrated.AsWrittenFallbackRaises | Integrated.ChainWithClockNeverRaises |
| reinforcement_learning.py:196-199 | a company, location or sector key seen for the first time is set to learning_rate*reward, at most 0.1, while unseen keys count as 0.5 when scoring | first feedback 'accepted' with score 10 for company "acme": its preference goes from 0.5 to 0.1 | the increment applies to the 0.5 default, so positive feedback never lowers a preference | not executed | FeedbackLearner.FirstAcceptanceLowersCompanyPreference | FeedbackLearner.CorrectedFeedbackNeverLowersPreferences |
| app.py:360 | the review stores `recommendation_score` as None when the recruiter gives none; `feedback_data.get('recommendation_score', 5)` then yields None, the reward division raises, and `process_feedback` returns False, so a successful review teaches the learner nothing | review with decision 'accepted' and no recommendation_score | the default score 5 applies and the learner is updated | not executed | CatalogApp.AsWrittenReviewWithoutScoreLearnsNothing | CatalogApp.CorrectedReviewLearns |
| backup_recommender.py:184-189 | the dedup keys on the stored chunk id `f"{idx}_{j}"` (backup_recommender.py:97-101), so two chunks of the same internship are two distinct ids and the same internship can be recommended twice | a query whose matches include chunks "0_0" and "0_1" of catalogue row 0 | one recommendation per internship, keyed on the row part of the chunk id | not executed | ChromaBackup.AsWrittenDedupRepeatsInternship | ChromaBackup.CorrectedDedupOnePerInternship |
