# NutriVerse core in Dafny

This project models the decision logic of NutriVerse, a nutrition-advice
chatbot, and proves properties of the model. NutriVerse reads a product's
brand from a photo, looks the product up and judges its ingredients against
the user's diets with a retrieval-augmented language model. It also keeps
anonymised user profiles, sorted into health segments, and answers chat
messages with the help of a table of tools.

The model has one module per source file, plus two shared modules:

- `Common` (`common.dfy`) — `Option`, `Raises` and the outcome of a model call.
  `Raises` is a value or the message of an exception, and stands for Python's
  exceptions.
- `Text` (`text.dfy`) — the string built-ins the code relies on: `lower`,
  `find`, `in`, `strip`, `split`, `join`, Python slices with negative bounds,
  and the first match of `(\d+)\s*(unit…)`.
- `Ranking` (`ranking.dfy`) — the stable sort by a key, `Counter.most_common`,
  and filtering.
- `Memory` (`memory.dfy`, memory_agent.py) — the segment catalogue and the
  class `MemoryAgent`. The class holds the profile table, its insertion order
  and the user-to-segment map, together with its invariant: every profile
  sits in the segment its tags select.
- `Rag` (`rag.dfy`, rag_agent.py) — the parsing of the model's answer, the
  per-diet analysis with its error fallback, the risk score and the baby-age
  brackets. The vector store and the model chain are oracle fields of
  `RagAgent`.
- `Tools` (`tools.dfy`, chatbot_tools.py) — the tool table of the class
  `ChatbotTools` with every handler, and the dispatch of `execute_tool`.
- `Chatbot` (`chatbot.dfy`, chatbot_agent.py) — the keyword extractors, the
  choice of prompt type and template, tool detection, the tool loop, and the
  capped history of the class `ChatbotAgent`.
- `NutriVerse` (`nutriverse.dfy`, NutriVerse.py) — the class `EnhancedChatbot`:
  profile extraction, missing information, clarifying questions, history, and
  the clarify-or-answer decision of `chat`.
- `Coordinator` (`coordinator.dfy`, main_coordinator.py) — the decisions of
  `full_analysis`.

Code that changes state in place is a class with `modifies` clauses. Each of
its methods is proved against a function of the old state. Loops are
`while`/`for` loops with invariants, proved equal to a specification
function. Pure code is made of functions and lemmas.

## Model

| member | source | states |
|---|---|---|
| Common.Lookup | rag_agent.py:90-92 | `key in dict` / `dict[key]` on an association list: `None` exactly when no entry has the key, otherwise the value of an entry with that key |
| Text.Lower | chatbot_agent.py:143 | `str.lower` keeps the length and lowers each character on its own |
| Text.Find | chatbot_agent.py:229-230 | `str.find`: -1 exactly when the pattern is absent, otherwise the index of its first occurrence |
| Text.Strip | NutriVerse.py:133 | `str.strip` gives text no longer than the input that neither starts nor ends with whitespace |
| Text.StripSlice | NutriVerse.py:133 | the stripped text is a slice of the input with only whitespace before and after it |
| Text.Split | NutriVerse.py:141 | `str.split(sep)` gives at least one piece, and no piece holds the separator |
| Text.JoinSplit | NutriVerse.py:141 | `sep.join` of the pieces of a split restores the text |
| Text.SplitJoin | NutriVerse.py:141 | splitting `sep.join(xs)` gives `xs` back when no piece holds the separator |
| Text.PyTake | memory_agent.py:138 | `s[:stop]` is a prefix, `stop` long when that fits, and `len(s) + stop` long (or empty) for a negative `stop` |
| Text.PyLast | NutriVerse.py:140 | `s[-n:]` is a suffix: the last `n` elements for a positive `n`, the whole of `s` for 0, and `s` without its first `-n` elements for a negative `n` |
| Text.NumberBeforeIsFirstMatch | chatbot_agent.py:273-276 | `re.search(r"(\d+)\s*(month…)", text)` matches exactly when some maximal digit run is followed by optional spaces and a unit, and `group(1)` is the first such run; the age search of NutriVerse.py (lines 50-54) is the same pattern over its own units |
| Ranking.FilteredIndices | chatbot_agent.py:289 | `[s for s in xs if s]` is the subsequence of `xs` at strictly increasing positions |
| Ranking.FilteredMembers | chatbot_agent.py:289 | the comprehension keeps exactly the accepted elements |
| Ranking.SortDescFacts | memory_agent.py:137 | `sort(key=…, reverse=True)` gives a permutation sorted by non-increasing key in which elements with equal keys keep their order (stability) |
| Ranking.TopByKey | memory_agent.py:137-138 | the first `n` after the sort are sorted, keep each key's elements in input order, and no element left out has a higher key than one taken |
| Ranking.Distinct | memory_agent.py:174 | the keys of `Counter(xs)`: no repeats, and exactly the elements of `xs` |
| Ranking.DistinctFirstSeen | memory_agent.py:174 | the counter lists its keys in the order of their first occurrence in `xs` |
| Ranking.MostCommonShape | memory_agent.py:174 | `most_common(n)` lists at most `n` distinct elements of `xs`, and fewer only when it lists all of them |
| Ranking.MostCommonOrder | memory_agent.py:180 | `most_common(n)` is ordered by non-increasing count, and no element left out occurs more often than one listed |
| Ranking.MostCommonTies | chatbot_agent.py:289 | elements of equal count come in the counter's own order |
| Ranking.MostCommonTiesFirstSeen | memory_agent.py:174 | elements of equal count come in the order of their first occurrence in `xs` |
| Ranking.MostCommonCutFirstSeen | memory_agent.py:180 | of equal counts at the `n` cut the first-seen elements are kept: a left-out element of the same count as a listed one first occurs after it |
| Ranking.TieAtCutExample | memory_agent.py:180 | `[1, 3]` is not `most_common(2)` of `[1, 1, 2, 3]`: of the two single occurrences the first-seen `2` is kept |
| Ranking.MostCommonIsMostCommon | chatbot_agent.py:289 | `most_common(n)` meets the whole description: at most `n` distinct elements of `xs`, fewer only when all are listed, by non-increasing count, none left out more frequent, ties in first-seen order both among the listed elements and at the cut |
| Memory.SegmentDescription | memory_agent.py:168 | the catalogue description of a known segment, and `''` for an unknown one |
| Memory.DescriptionIn | memory_agent.py:168 | over a table of distinct names: the description of the entry with that name, or `''` when there is none |
| Memory.BestBounds | memory_agent.py:72-86 | the choice of the segment loop counts at least as many matches as every segment; zero matches keep `general_health` |
| Memory.BestIsFirstMaximum | memory_agent.py:84-86 | a choice with matches is the first segment reaching the largest count (strict `>`, so ties keep the earlier segment) |
| Memory.SegmentOfIsFirstMaximum | memory_agent.py:69-89 | the assigned segment is a catalogue key, is the first one with the most matches, and is `general_health` exactly when nothing matches |
| Memory.MatchOne | memory_agent.py:76-82 | a single condition adds one match or none |
| Memory.BabySegments | memory_agent.py:79-82 | on baby age alone: a non-zero age up to 6 (negative ones included) gives `baby_parents_0_6`, 7..12 gives `baby_parents_6_12`, and 0, None and other ages give `general_health` |
| Memory.EmptyTagCounts | memory_agent.py:76-82 | with no conditions or allergies only the two baby segments can count a match, under the truthiness test on `baby_age_months` |
| Memory.NoTagsMatchNothing | memory_agent.py:77 | conditions other than the baby tags never match empty lists |
| Memory.ChooseSegment | memory_agent.py:69-89 | the loop with its running maximum returns the segment `SegmentOf` selects, a catalogue key |
| Memory.NewProfile | memory_agent.py:47-61 | a new record is in `general_health` with 0 interactions |
| Memory.NewProfileSegmented | memory_agent.py:47-62 | the new record already sits in the segment its tags select |
| Memory.Touch | memory_agent.py:64-65 | an access refreshes `last_active`, adds exactly one interaction and changes nothing else |
| Memory.AccessedFacts | memory_agent.py:45-67 | first access creates a `general_health` profile with 1 interaction; later accesses add 1 and change only `last_active` |
| Memory.Reassigned | memory_agent.py:88 | the segment is recomputed, lies in the catalogue and fits the tags; no other field changes |
| Memory.ChatEffectIsIdentity | memory_agent.py:95-101 | as written, the interaction step leaves every profile unchanged |
| Memory.SymptomReportTests | memory_agent.py:96-100 | neither `bloating` nor `baby` occurs in the lowered constant `symptom_report` |
| Memory.SymptomReportWords | memory_agent.py:96-100 | neither word occurs in `symptom_report` |
| Memory.LowerSymptomReport | memory_agent.py:96 | lowering `symptom_report` gives it back |
| Memory.SymptomEffect | memory_agent.py:95-101 | corrected step reading the message: `bloating` is added to the complaints (with `digestive_issues`) at most once; `baby` marks children; otherwise nothing changes |
| Memory.Jaccard | memory_agent.py:145-152 | the Jaccard ratio of two non-empty sets lies in [0, 1] and is 1 for equal sets |
| Memory.RatioBounds | memory_agent.py:145 | a ratio of a part to its whole lies in [0, 1] |
| Memory.JaccardSymmetric | memory_agent.py:145 | the Jaccard ratio does not depend on argument order |
| Memory.SubsetCard | memory_agent.py:145 | the intersection is no larger than the union |
| Memory.CalculateSimilarity | memory_agent.py:140-155 | the similarity lies in [0, 1] |
| Memory.RawSimilarityBounds | memory_agent.py:141-153 | the weights 0.4 + 0.3 + 0.3 keep the raw score within [0, 1], so `min` never cuts it |
| Memory.SimilarityFacts | memory_agent.py:140-155 | the similarity equals the raw score and is symmetric |
| Memory.SelfSimilarity | memory_agent.py:140-155 | a profile with conditions and diets is fully similar to itself |
| Memory.PeersSound | memory_agent.py:124-136 | every collected record concerns another user of the same segment and carries its score, shared conditions and first three recommendations |
| Memory.PeersComplete | memory_agent.py:125-128 | every other user of the segment is collected |
| Memory.SimilarUsersMembers | memory_agent.py:117-138 | an unknown user gets `[]`; every record concerns another user of the same segment |
| Memory.SimilarUsersOrder | memory_agent.py:137-138 | the result is sorted by descending score, holds at most `max_users` records, keeps equal scores in table order, and no peer left out scores higher than one returned |
| Memory.TopScored | memory_agent.py:137-138 | `sorted(records)[:max_users]` by score: sorted, bounded, stable, and the best-scored records |
| Memory.SimilarUsersComplete | memory_agent.py:137-138 | a result shorter than `max_users` lists every other member of the segment |
| Memory.CollectedPermuted | memory_agent.py:137 | sorting keeps every collected user |
| Memory.Members | memory_agent.py:158-159 | the segment's users are exactly the users of the table in that segment |
| Memory.Texts | memory_agent.py:180-181 | plain-string recommendations keep their text, one per entry |
| Memory.CommunityInsightsFacts | memory_agent.py:157-183 | an empty segment gives the no-data text; otherwise it raises exactly when a member holds a dict recommendation, and a summary counts the members and lists the three most common complaints and solutions: none left out more frequent, fewer than three only when all are listed, by descending count, ties in first-seen order, and of equal counts at the cut the first-seen ones kept |
| Memory.RecommendationsOfMembers | memory_agent.py:176-178 | the gathered recommendations hold a dict exactly when some member's list does |
| Memory.CommunityInsightsIntended | memory_agent.py:176-181 | corrected insights reading the recommendation text: never raise, give at most three solutions drawn from the members' texts, and agree with the original whenever it does not raise |
| Memory.RecordedRecommendationBreaksInsights | memory_agent.py:176-192 | after `add_successful_recommendation` the insights of that user's segment raise |
| Memory.OrderPutExisting | memory_agent.py:45-47 | storing under an existing key keeps the insertion order |
| Memory.OrderPutNew | memory_agent.py:46-47 | storing a new key appends it to the insertion order |
| Memory.SegmentsPut | memory_agent.py:47-62 | storing a profile leaves only that user's segment to assign |
| Memory.SegmentsPutSameTags | memory_agent.py:64-112 | replacing a profile by one with the same tags and segment keeps the invariant |
| Memory.SameTagsSegmented | memory_agent.py:64-65 | a profile with the same tags and segment is still correctly segmented |
| Memory.SegmentsAssign | memory_agent.py:88-89 | assigning the pending user's segment restores the invariant |
| Memory.MemoryAgent.constructor | memory_agent.py:7-11 | the agent starts with empty tables and satisfies its invariant |
| Memory.MemoryAgent.AssignUserSegment | memory_agent.py:69-89 | the profile's segment and `user_segments` both get the recomputed segment; the table order is kept |
| Memory.MemoryAgent.GetOrCreateUserProfile | memory_agent.py:45-67 | the returned and stored profile is the accessed one; a new user is appended to the order; the invariant holds |
| Memory.MemoryAgent.StoreAndAssign | memory_agent.py:103-108 | stores a profile and reassigns its segment, keeping the invariant |
| Memory.MemoryAgent.UpdateFromChatInteraction | memory_agent.py:91-103 | access, the (inert) interaction step, then segment reassignment; the segment map follows the profile |
| Memory.MemoryAgent.UpdateUserProfile | memory_agent.py:105-108 | access, the update, then the segment the updated tags select |
| Memory.MemoryAgent.StoreSameTags | memory_agent.py:112-115 | a store that changes no tag keeps the invariant and the segment map |
| Memory.MemoryAgent.AddProductAnalysis | memory_agent.py:110-115 | access, then one more analysis record with the time, the segment map unchanged |
| Memory.MemoryAgent.AddSuccessfulRecommendation | memory_agent.py:185-192 | access, then one more dict recommendation with the time |
| Memory.MemoryAgent.GetSimilarUsers | memory_agent.py:117-138 | the loop and sort return `SimilarUsers` of the table |
| Memory.MemoryAgent.CollectComplaints | memory_agent.py:169-171 | the loop concatenates the members' complaints in member order |
| Memory.MemoryAgent.CollectRecommendations | memory_agent.py:176-178 | the loop concatenates the members' recommendations in member order |
| Memory.MemoryAgent.GetCommunityInsights | memory_agent.py:157-183 | the method returns `CommunityInsights` of the table |
| Rag.DietInfo | rag_agent.py:72-95 | no store gives the not-ready text; an unknown diet gives the not-found text; a search exception escapes; otherwise the top three hits, one per line, or the no-information text; never empty |
| Rag.RiskOf | rag_agent.py:124-129 | LOW when `risk_level: low` occurs, otherwise MEDIUM when `risk_level: medium` occurs, otherwise HIGH |
| Rag.HazardBounds | rag_agent.py:130-134 | the hazard span starts after the first marker and ends at the next explanation marker or at the end |
| Rag.Cleaned | rag_agent.py:138 | every kept piece is non-empty and stripped; never more pieces than input |
| Rag.ExplanationOf | rag_agent.py:140-142 | without the explanation marker the explanation is `Analysis incomplete` |
| Rag.Parse | rag_agent.py:114-170 | suitable iff one of the two suitable-yes markers occurs; the risk and explanation as above; the listed hazards, else the diet's terms found in the answer, else the no-hazard sentinel — never empty |
| Rag.ParseLlmResponse | rag_agent.py:114-170 | the step-by-step parse with its scan loop returns `Parse` |
| Rag.ExtractExplanation | rag_agent.py:140-142 | the explanation step returns `ExplanationOf` |
| Rag.WithFallback | rag_agent.py:159-163 | the listed hazards, or the table terms found when none are listed |
| Rag.ExtractListed | rag_agent.py:130-138 | the hazard step returns `Listed` |
| Rag.Scan | rag_agent.py:161-163 | the loop appends every term found, in table order |
| Rag.MatchingIsFilter | rag_agent.py:161-163 | the scan result is a subsequence of the terms |
| Rag.MatchingMembers | rag_agent.py:159-163 | a term is in the scan result iff it is in the table and occurs in the answer |
| Rag.JoinEnds | rag_agent.py:136-138 | joining non-empty pieces starts and ends with their outer characters |
| Rag.CleanedKeeps | rag_agent.py:138 | stripped, non-empty pieces pass the cleaning unchanged |
| Rag.ListedWins | rag_agent.py:159-169 | a non-empty listed span is the verdict's hazard list; the scan is skipped |
| Rag.ListedRoundTrip | rag_agent.py:130-138 | a marker followed by comma-joined stripped names lists exactly those names |
| Rag.JoinedListed | rag_agent.py:136-138 | read back as a hazard span, the joined names give the names |
| Rag.JoinedStripped | rag_agent.py:136 | stripped names joined by commas need no stripping |
| Rag.JoinedSplit | rag_agent.py:138 | splitting the comma-joined names at commas and cleaning gives them back |
| Rag.ListedAfterMarker | rag_agent.py:130-136 | a marker at the start opens the span on the rest of the answer |
| Rag.SpanAfterMarker | rag_agent.py:131-134 | the span after a leading marker runs to the end when no explanation marker follows |
| Rag.LowerHazardMarker | rag_agent.py:130-131 | the marker is already lower case |
| Rag.NoMarkersFailClosed | rag_agent.py:115-142 | an answer without any `:` is unsuitable, HIGH, with the incomplete explanation and no listed hazards |
| Rag.MarkerInsideWord | rag_agent.py:120 | `unsuitable: yes` contains the suitable-yes marker and so reads as suitable |
| Rag.EmptyExplanation | rag_agent.py:140-142 | an answer ending right after the explanation marker gives an empty explanation |
| Rag.ExplanationIntended | rag_agent.py:118-142 | the explanation with the sentinel also used for an empty one: never empty, and otherwise equal to the original |
| Rag.LlmVerdict | rag_agent.py:97-112 | a retrieval exception escapes; a failure of the chain gives the unsuitable HIGH `Analysis error` verdict; a reply gives its parse |
| Rag.AnalyseAllReturn | rag_agent.py:172-179 | without exceptions the analysis maps each preference to its own verdict |
| Rag.AnalyseFirstRaise | rag_agent.py:175-177 | the first preference whose analysis raises raises out of the whole analysis |
| Rag.AnalyseKeys | rag_agent.py:174-177 | a result has exactly the distinct preferences as keys |
| Rag.AnalyzeIngredients | rag_agent.py:172-179 | the loop returns `Analysis` |
| Rag.AnalyseInOrder | rag_agent.py:174-179 | the dictionary loop, with its early exit on an exception, returns `Analyse` |
| Rag.RiskScore | rag_agent.py:181-187 | the percentage of suitable verdicts lies in [0, 100], is 0 for no verdicts, is 0 iff none is suitable, and is 100 iff all are |
| Rag.SafeKeysFacts | rag_agent.py:186 | the suitable entries are at most all entries: none exactly when no verdict is suitable, all exactly when every one is |
| Rag.LlmDownScoresZero | rag_agent.py:97-187 | with the retrieval working and the model down, every verdict is unsuitable and the score is 0 |
| Rag.BracketOf | rag_agent.py:210-213 | no bracket is chosen exactly when no bracket contains the age |
| Rag.BabyBrackets | rag_agent.py:205-212 | inclusive bounds in dictionary order: 0-6 gives `baby_0_6`, 7-8 gives `baby_6_8`, 9-12 gives `baby_8_12` |
| Rag.AnalyzeForBabyAge | rag_agent.py:204-219 | an age 0-12 is analysed for its bracket's diet key; any other age gets the general verdict |
| Tools.Preferences | chatbot_tools.py:65 | the conditions followed by the allergies: its length and members |
| Tools.ToolNamesDistinct | chatbot_tools.py:22-31 | no two handlers share a name |
| Tools.ToolNamed | chatbot_tools.py:33-36 | a found handler has the name looked up; none is found exactly when no handler has it |
| Tools.DefaultProfileFields | chatbot_tools.py:42-48 | without a memory agent the profile is `general_health`, `adult`, no conditions or allergies, no children |
| Tools.AgeAdvice | chatbot_tools.py:87-97 | the advice of a listed age group, else the general advice; always an entry of the table |
| Tools.AdultGetsGeneral | chatbot_tools.py:97 | the `adult` group of a stored profile gets the general advice |
| Tools.ExtractIngredientsFromImage | chatbot_tools.py:71-76 | the image tool always reports that no analysis was done |
| Tools.AsAnalysis | chatbot_tools.py:67 | the agent's analysis result, or its exception |
| Tools.SimilarUsersAtMost | chatbot_tools.py:52 | asking for 3 similar users gives at most 3 |
| Tools.ChatbotTools.constructor | chatbot_tools.py:6-9 | the table keeps the agents it is given |
| Tools.ChatbotTools.AnalyzeIngredients | chatbot_tools.py:63-69 | without an agent, ingredients or preferences: the no-analysis message; otherwise exactly the agent's analysis over the conditions followed by the allergies, its exception passed through and its map keyed by each condition and allergy |
| Tools.ChatbotTools.CalculateNutritionRisk | chatbot_tools.py:84-85 | the same as the ingredient analysis |
| Tools.ChatbotTools.CheckBabySafety | chatbot_tools.py:99-107 | without an agent the stub verdict; otherwise the agent's baby-age analysis, general for an age outside 0-12 |
| Tools.ChatbotTools.FindSimilarUsers | chatbot_tools.py:50-61 | the count of at most 3 similar users with its message, or 0 when there is no memory agent |
| Tools.ChatbotTools.GetCommunityInsights | chatbot_tools.py:78-82 | the memory agent's insights for the segment (argument order swapped, as in the source), or the unavailable text |
| Tools.ChatbotTools.GetUserProfile | chatbot_tools.py:38-48 | the accessed profile of the memory agent (which is updated), or the default profile |
| Tools.ChatbotTools.ExecuteTool | chatbot_tools.py:21-36 | an unknown name gives `Tool … not found`; the profile handler accesses the profile, records its segment and appends a new user to the insertion order; every other handler changes nothing and returns its handler's result |
| Chatbot.FirstOccurring | chatbot_agent.py:228-229 | the first listed word that occurs, or none exactly when no word occurs |
| Chatbot.Classify | chatbot_agent.py:254-263 | a chain of keyword tests returns the outcome of the first group with a word in the text, else the fallback |
| Chatbot.Window | chatbot_agent.py:231 | `text[start:start+200]`: at most the width, cut at the end of the text |
| Chatbot.TextAfter | chatbot_agent.py:228-232 | none exactly when no keyword occurs in the lowered text; otherwise the window after the first occurrence of the first keyword found |
| Chatbot.ExtractIngredientsFromText | chatbot_agent.py:226-232 | none exactly when no ingredient keyword occurs; a found text is at most 200 characters long |
| Chatbot.FoundOr | chatbot_agent.py:243-250 | never empty |
| Chatbot.FoundOrFacts | chatbot_agent.py:243-250 | the fallback alone exactly when no table word occurs; otherwise exactly the occurring words, in table order |
| Chatbot.FoundOrPicks | chatbot_agent.py:243-250 | the fallback alone exactly when no table word occurs; otherwise exactly the occurring words, at increasing table positions |
| Chatbot.ExtractKeywords | chatbot_agent.py:234-250 | never empty; `['general health']` exactly when no health keyword occurs in the lowered text; otherwise exactly the occurring keywords, in table order |
| Chatbot.ExtractProblemType | chatbot_agent.py:252-263 | child > digestive > diabetes > heart: the first group with a word in the text, else `general_health` |
| Chatbot.ExtractProductType | chatbot_agent.py:265-270 | the first product word occurring in the lowered text, else `general` |
| Chatbot.ExtractBabyAge | chatbot_agent.py:272-277 | the number of the first match of the month pattern on the case-sensitive text, else 6 |
| Chatbot.Solutions | chatbot_agent.py:282-286 | one solution text per recommendation, the dict's `recommendation` or the string itself |
| Chatbot.ExtractCommonSolutions | chatbot_agent.py:279-290 | the three most common non-empty solutions of the similar users: distinct, none left out more frequent, fewer than three only when all are listed, by descending count with ties in first-seen order, and of equal counts at the cut the first-seen ones kept |
| Chatbot.DeterminePromptType | chatbot_agent.py:391-398 | product words give `product_analysis`, otherwise symptom words give `symptom_analysis`, otherwise `health_advice` |
| Chatbot.TemplateNamed | chatbot_agent.py:297 | a found template carries the key looked up |
| Chatbot.PromptFilled | chatbot_agent.py:292-326 | the key `<type>_with_tools` names a template, and every placeholder of that template is among the arguments `format` is given for that type |
| Chatbot.RequestedTools | chatbot_agent.py:140-173 | the profile tool always; similar users on similar or symptom words; ingredients, image, baby safety with age advice, and risk on their own words |
| Chatbot.Names | chatbot_agent.py:147-173 | the tool names, one per tool, in order |
| Chatbot.NamesMembers | chatbot_agent.py:175 | a tool's name is listed iff the tool is; every listed name names a listed tool |
| Chatbot.ListOfSet | chatbot_agent.py:175 | `list(set(...))` holds every element once and nothing else |
| Chatbot.FromRaises | chatbot_agent.py:221-222 | a handler's exception becomes `Tool error: <message>` |
| Chatbot.CollectResults | chatbot_agent.py:182-224 | the loop over the required tools builds `ToolResults` |
| Chatbot.ToolResultsEntries | chatbot_agent.py:182-224 | a name is a key of the results iff it was required and its branch stores something; its value is that branch's entry |
| Chatbot.EntryGaps | chatbot_agent.py:182-220 | unknown names and the community tool store nothing; no ingredients means no ingredient, risk or baby entry; no children or a zero age means no baby entry |
| Chatbot.EntryValues | chatbot_agent.py:184-212 | the profile, the fixed upload message, the age advice, and the similar-user count with the top 3 users and the common solutions |
| Chatbot.EntryErrors | chatbot_agent.py:195-222 | with ingredients found, the analysis, risk and baby entries are the tool's result or its `Tool error:` text |
| Chatbot.Appended | chatbot_agent.py:378-389 | the history grows by one turn, ending with it, kept to its last 20 turns |
| Chatbot.ChatbotAgent.constructor | chatbot_agent.py:14-20 | the agent keeps the memory agent, builds its tool table over the same RAG agent, and starts with no histories |
| Chatbot.ChatbotAgent.AddToHistory | chatbot_agent.py:378-389 | only this user's history changes, to the appended and capped one |
| Chatbot.ChatbotAgent.GetConversationHistory | chatbot_agent.py:373-376 | creates an empty history for a new user; returns a suffix of the history, `max_messages` long when positive and shorter than the history, the whole history for 0; in every case `history[-max_messages:]`, negative counts included |
| Chatbot.ChatbotAgent.ExecuteTools | chatbot_agent.py:177-224 | the profile is accessed once and the results are `ToolResults` over the handlers bound to that profile and the message |
| Chatbot.ChatbotAgent.DetectToolRequirements | chatbot_agent.py:140-175 | as written: each detected tool name once; a symptom message updates the profile `unknown` and no other, appending `unknown` to the insertion order when it is new; otherwise the memory is unchanged |
| Chatbot.ChatbotAgent.DetectToolRequirementsFor | chatbot_agent.py:140-175 | corrected: the same tools, with the symptom update (and the insertion order) on the chatting user |
| Chatbot.ChatbotAgent.RequiredFor | chatbot_agent.py:142-175 | each detected tool name once, with the symptom update on the given id, which joins the insertion order when it is new |
| Chatbot.ChatbotAgent.ReportSymptom | chatbot_agent.py:166-170 | the update leaves only the accessed and re-segmented profile, and appends a new id to the insertion order |
| Chatbot.ToolNamedFacts | chatbot_tools.py:22-31 | every tool's name looks up that tool |
| NutriVerse.Updated | NutriVerse.py:42-45 | every key the update carries replaces the stored value and every other key keeps it, then the conversation count grows by one |
| NutriVerse.WithAge | NutriVerse.py:50-54 | a falsy age takes the number of the first match of the age pattern; otherwise, or without a match, nothing changes |
| NutriVerse.WithChild | NutriVerse.py:56-60 | a six-month phrase sets children and adds age 6 once; otherwise nothing changes |
| NutriVerse.SixMonthsIsChildMarker | NutriVerse.py:56-57 | a six-month phrase always passes the outer child-word test |
| NutriVerse.WithConditions | NutriVerse.py:70-72 | the loop only appends |
| NutriVerse.ConditionsAdded | NutriVerse.py:62-72 | a condition is present iff it was, or one of its keywords occurs; no repeats are introduced |
| NutriVerse.ConditionsInTableOrder | NutriVerse.py:70-72 | the stored list is kept as a prefix, and after it come conditions not already listed, each once, in the order of their first occurring table entry |
| NutriVerse.EnhancedChatbot.AppendConditions | NutriVerse.py:70-72 | the loop over the table yields the list `WithConditions` describes |
| NutriVerse.MedicalConditionsDistinct | NutriVerse.py:62-68 | the keyword table has distinct conditions |
| NutriVerse.Missing | NutriVerse.py:74-85 | `age` iff none; `has_children` iff unknown after more than one exchange; `children_ages` iff children but no ages; no repeats; age first |
| NutriVerse.MissingAtMostTwo | NutriVerse.py:80-83 | `has_children` and `children_ages` are never missing together, so at most two items are |
| NutriVerse.FirstAnswered | NutriVerse.py:95-98 | the value of the first item the table has, or none exactly when it has none |
| NutriVerse.AskClarifyingQuestion | NutriVerse.py:87-98 | the question of the first item that has one, or none exactly when no item has one |
| NutriVerse.MissingHaveQuestions | NutriVerse.py:76-93 | every missing item has a question |
| NutriVerse.Clarification | NutriVerse.py:156-158 | a question is asked iff something is missing and fewer than 10 turns are stored; it is the question for the first missing item |
| NutriVerse.AgeAskedFirst | NutriVerse.py:78-158 | a profile without an age is asked for it |
| NutriVerse.Lines | NutriVerse.py:141 | one `role: content` line per turn |
| NutriVerse.LinesRoundTrip | NutriVerse.py:140-141 | without newlines in the turns, splitting the text gives the lines back |
| NutriVerse.Grown | NutriVerse.py:143-150 | the user's history ends with the new turns; other users' histories are kept |
| NutriVerse.GrownTwice | NutriVerse.py:143-150 | two appends are one append of both |
| NutriVerse.EnhancedChatbot.constructor | NutriVerse.py:22-25 | no profiles and no histories |
| NutriVerse.EnhancedChatbot.GetUserProfile | NutriVerse.py:27-40 | the new record is stored on first access; later accesses change nothing |
| NutriVerse.EnhancedChatbot.UpdateProfile | NutriVerse.py:42-45 | the profile becomes the updated one |
| NutriVerse.EnhancedChatbot.ExtractProfileInfo | NutriVerse.py:47-72 | the age step, the child step, then the condition loop |
| NutriVerse.EnhancedChatbot.GetMissingInfo | NutriVerse.py:74-85 | the missing list of the fetched profile (which is stored) |
| NutriVerse.EnhancedChatbot.GetConversationHistory | NutriVerse.py:137-141 | `No previous conversation` for an unknown user; otherwise the `role: content` lines of `history[-max_messages:]` joined by newlines, which split back into those lines when no turn holds a newline |
| NutriVerse.EnhancedChatbot.AddToHistory | NutriVerse.py:143-150 | appends one turn and never cuts |
| NutriVerse.EnhancedChatbot.Respond | NutriVerse.py:155-166 | the due clarifying question, else the personalized answer, appended to the history |
| NutriVerse.EnhancedChatbot.Converse | NutriVerse.py:153-166 | the user turn and the reply are appended; the reply as in `Respond` |
| NutriVerse.EnhancedChatbot.Chat | NutriVerse.py:152-166 | the profile after extraction; the history grows by exactly the user turn and the reply; the reply is the question for the first missing item when one is due (the model is not consulted), else the personalized answer |
| Coordinator.SafetyLabel | main_coordinator.py:42 | `GÜVENLİ` iff the score is above 80, `ORTA` iff above 50 and at most 80, `RİSKLİ` iff at most 50 |
| Coordinator.SafetyMonotone | main_coordinator.py:42 | a higher score never gets a less safe label |
| Coordinator.SafetyBoundaries | main_coordinator.py:42 | 80 is `ORTA`, 50 is `RİSKLİ`, 100 is `GÜVENLİ`, 0 is `RİSKLİ` |
| Coordinator.FullAnalysis | main_coordinator.py:19-42 | a failed brand gives `Marka tespit edilemedi`; a search error gives `Ürün bulunamadı`; otherwise the report of the analysed ingredients (`''` when absent) with the risk score and its label; an analysis exception escapes |
| Coordinator.NoSearchAfterFailedBrand | main_coordinator.py:24-26 | a failed brand's result does not depend on the search, the agent or the preferences |
| Coordinator.VisionErrorIsFailure | main_coordinator.py:24 | the vision call's `Hata: …` failure text counts as a failed detection |
| Coordinator.NoAnalysisAfterSearchError | main_coordinator.py:28-29 | after a search error the result does not depend on the agent or the preferences |
| Coordinator.ReportLabels | main_coordinator.py:34-42 | a product every preference finds suitable is `GÜVENLİ`; one none finds suitable is `RİSKLİ` |
| Coordinator.LlmDownIsRisky | main_coordinator.py:33-42 | with the retrieval working and the model down, a found product is `RİSKLİ` |

## Left out

- I/O and external services are oracles or parameters. Reading the Word
  document, building the FAISS store and the embeddings, and the LangChain and
  ollama calls are left out. The vector search and the analysis chain are the
  fields `search` and `llm` of `Rag.RagAgent`. The model's reply to
  `generate_personalized_response` is the `llm` argument of
  `EnhancedChatbot.Chat`. The vision and search agents are the `brand` and
  `search` arguments of `Coordinator.FullAnalysis`.
- Clocks: `datetime.now()` is a `now` parameter, one value per call.
- `ChatbotAgent.chat`, `get_enhanced_context`, `get_rag_context` and
  `get_chat_summary` are not modelled: each is built around a model or
  vector-store call. `generate_enhanced_prompt` is modelled only as template
  selection and slot filling (`Chatbot.PromptFilled`); the prompt prose and the
  `str()` rendering of profiles and results are left out.
- The `import` of `ChatbotTools` that chatbot_agent.py lacks is a packaging
  matter; the model takes the class as imported.
- `search_similar_products` and `get_scientific_evidence` of the RAG agent are
  left out: they only wrap the vector search.
- The Streamlit interface of NutriVerse.py (from line 169) is left out.
- Floating point: similarity and risk scores are exact `real`s, not IEEE
  doubles. `calculate_risk_score` returns the integer 0 for no verdicts; the
  model returns `0.0`.
- `lower()` is ASCII only, as a length-preserving map. No Unicode case mapping
  is modelled, so `İ` and the Turkish keywords are compared as written. `\d`
  matches ASCII digits only.
- Python set order: `list(set(...))` in `detect_tool_requirements` has an order
  the model leaves open (`Chatbot.ListOfSet`). The iteration order of
  `set(keywords[:4])` is not used anywhere in the model. The
  `common_conditions` of a similar user, `list(set(a) & set(b))` in
  `get_similar_users`, is a set (`Memory.Peer`), so its list order is not
  modelled either.
- `execute_tool(**kwargs)` with arguments a handler does not take raises
  `TypeError` in Python. The model passes each handler exactly the arguments it
  takes (`Tools.ToolArgs`).
- `dict.update` with keys outside the profile record is not modelled: an update
  carries only the record's own keys (`Memory.ProfileUpdate`,
  `NutriVerse.ProfileUpdate`).
- `anonymized_data` and `tool_descriptions` are never read and are left out.
- Memory.ChatEffectIsIdentity / Chatbot.ChatbotAgent.ReportSymptom: the source
  is modelled as written, so the symptom report changes only the access
  fields and the segment; the corrected `Memory.SymptomEffect` is proved but
  not wired into the chat path.
- Chatbot.ChatbotAgent.ExecuteTools: the user's profile is accessed once, but
  the similar-users lookup reads the table after that access, as the source
  does.
- Tools.ChatbotTools.GetCommunityInsights: `problem_type` is passed but
  unused, as in the source.

## Findings

| source | as written | input that shows it | evidently intended | confidence | as-written member | corrected member |
|---|---|---|---|---|---|---|
| memory_agent.py:95-101 | the substring tests read the constant `interaction_type`, which is always `"symptom_report"`, so neither `bloating` nor `baby` can ever match | any chat message mentioning bloating | test the user's message for the words | not executed | Memory.ChatEffectIsIdentity | Memory.SymptomEffect |
| chatbot_agent.py:166-170 | the symptom update goes to `user_profile.get('user_id', 'unknown')`, but profiles carry no `user_id` key, so it always lands on the profile `unknown` | user `u1` sends "I have pain" | update the chatting user's profile | not executed | Chatbot.ChatbotAgent.DetectToolRequirements | Chatbot.ChatbotAgent.DetectToolRequirementsFor |
| memory_agent.py:176-192 | `add_successful_recommendation` stores dicts, and `Counter` over them raises `TypeError: unhashable type: 'dict'` | one recorded recommendation, then the insights for that user's segment | count the recommendation texts | not executed | Memory.RecordedRecommendationBreaksInsights | Memory.CommunityInsightsIntended |
