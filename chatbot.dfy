/** The tool-using chatbot agent: keyword tables that decide which tools a
    message needs and which prompt template answers it, the tool loop with
    one failure boundary per tool, the keyword extractors that feed the
    tools, and a per-user conversation history capped at 20 turns. */
module Chatbot {
  import opened Common
  import opened Text
  import opened Ranking
  import opened Memory
  import opened Rag
  import opened Tools

  // ------------------------------------------------------ first-match scans

  /** Word `k` is the first word of `words`, in list order, that occurs in `l`. */
  predicate FirstWordIs(l: string, words: seq<string>, k: int) {
    0 <= k < |words| && Contains(l, words[k]) && forall j :: 0 <= j < k ==> !Contains(l, words[j])
  }

  /** The first word of `words`, in list order, that occurs in `l`. */
  function FirstOccurring(l: string, words: seq<string>): (r: Option<string>)
    ensures r.None? <==> !ContainsAny(l, words)
    ensures r.Some? ==> exists k :: FirstWordIs(l, words, k) && words[k] == r.value
  {
    if words == [] then None
    else if Contains(l, words[0]) then Some(words[0])
    else
      var r := FirstOccurring(l, words[1..]);
      assert forall j :: 1 <= j < |words| ==> words[j] == words[1..][j - 1];
      r
  }

  /** A keyword rule: any of the words selects the label. */
  datatype Rule = Rule(words: seq<string>, outcome: string)

  /** The label of rule `k` wins: one of its words occurs and no earlier rule's
      word does. */
  predicate Wins(l: string, rules: seq<Rule>, k: int) {
    0 <= k < |rules| && ContainsAny(l, rules[k].words)
    && forall j :: 0 <= j < k ==> !ContainsAny(l, rules[j].words)
  }

  /** An `if any(...) elif any(...) ... else` chain over the lowered text:
      the outcome of the winning rule, or the fallback when no rule's word
      occurs. */
  function Classify(l: string, rules: seq<Rule>, fallback: string): (r: string)
    ensures (forall k :: 0 <= k < |rules| ==> !ContainsAny(l, rules[k].words)) ==> r == fallback
    ensures forall k :: Wins(l, rules, k) ==> r == rules[k].outcome
  {
    if rules == [] then fallback
    else if ContainsAny(l, rules[0].words) then rules[0].outcome
    else
      var r := Classify(l, rules[1..], fallback);
      assert forall j :: 1 <= j < |rules| ==> rules[j] == rules[1..][j - 1];
      assert forall k :: Wins(l, rules, k) ==> k > 0 && Wins(l, rules[1..], k - 1);
      r
  }

  // ------------------------------------------------------------ extractors

  const IngredientKeywords: seq<string> := ["ingredients", "contains", "made with", "composition", "made from"]

  /** `text[start:start + width]` for a non-negative `start`. */
  function Window(text: string, start: nat, width: nat): (r: string)
    ensures |r| <= width
    ensures start <= |text| ==> r == text[start..][..if width < |text| - start then width else |text| - start]
  {
    text[PyIndex(start, |text|)..PyIndex(start + width, |text|)]
  }

  /** What follows the first keyword of `keywords` (in list order) that
      occurs in the lowered text, up to `width` characters, read on the
      original text just after the keyword's first occurrence. */
  function TextAfter(text: string, keywords: seq<string>, width: nat): (r: Option<string>)
    ensures r.None? <==> !ContainsAny(Lower(text), keywords)
    ensures r.Some? ==> exists k ::
      && FirstWordIs(Lower(text), keywords, k)
      && OccursAt(Lower(text), keywords[k], Find(Lower(text), keywords[k]))
      && r.value == Window(text, Find(Lower(text), keywords[k]) + |keywords[k]|, width)
  {
    var l := Lower(text);
    match FirstOccurring(l, keywords)
    case None => None
    case Some(kw) => Some(Window(text, Find(l, kw) + |kw|, width))
  }

  /** `extract_ingredients_from_text(text)`: up to 200 characters after the
      first ingredient keyword found, or `None`. */
  function ExtractIngredientsFromText(text: string): (r: Option<string>)
    ensures r.None? <==> !ContainsAny(Lower(text), IngredientKeywords)
    ensures r.Some? ==> |r.value| <= 200
  {
    TextAfter(text, IngredientKeywords, 200)
  }

  const HealthKeywords: seq<string> := [
    "diabetes", "sugar", "heart", "blood pressure", "allergy", "diet",
    "nutrition", "vitamin", "mineral", "protein", "fat", "carbohydrate",
    "baby", "child", "pregnant", "elderly", "sport", "exercise",
    "medicine", "treatment", "symptom", "diagnosis", "cholesterol", "obesity",
    "celiac", "gluten", "lactose", "vegan", "vegetarian", "bloating", "pain"]

  const GeneralHealth := "general health"

  /** The table words that occur in `l`, in table order, or the fallback word
      alone when none does. */
  function FoundOr(l: string, table: seq<string>, fallback: string): (r: seq<string>)
    ensures r != []
  {
    var found := Matching(l, table);
    if found == [] then [fallback] else found
  }

  /** What `FoundOr` finds: the occurring table words, in table order; the
      fallback exactly when no table word occurs. */
  lemma FoundOrFacts(l: string, table: seq<string>, fallback: string) returns (idx: seq<nat>)
    requires fallback !in table
    ensures FoundOr(l, table, fallback) == [fallback] <==> forall w :: w in table ==> !Contains(l, w)
    ensures FoundOr(l, table, fallback) != [fallback] ==>
      && (forall w :: w in FoundOr(l, table, fallback) <==> w in table && Contains(l, w))
      && PicksOf(FoundOr(l, table, fallback), table, idx)
  {
    MatchingMembers(l, table);
    idx := MatchingIsFilter(l, table);
    if Matching(l, table) == [] {
      assert forall w :: w in table ==> !Contains(l, w) by {
        forall w | w in table ensures !Contains(l, w) {
          assert w !in Matching(l, table);
        }
      }
    } else {
      var w := Matching(l, table)[0];
      assert w in Matching(l, table);
    }
  }

  /** `extract_keywords(text)`: the health keywords the lowered text
      mentions, in table order, or `['general health']`; never empty. */
  function ExtractKeywords(text: string): (r: seq<string>)
    ensures r != []
    ensures r == [GeneralHealth] <==> forall w :: w in HealthKeywords ==> !Contains(Lower(text), w)
    ensures r != [GeneralHealth] ==>
      && (forall w :: w in r <==> w in HealthKeywords && Contains(Lower(text), w))
      && exists idx :: PicksOf(r, HealthKeywords, idx)
  {
    assert GeneralHealth !in HealthKeywords;
    FoundOrPicks(Lower(text), HealthKeywords, GeneralHealth);
    FoundOr(Lower(text), HealthKeywords, GeneralHealth)
  }

  /** `FoundOrFacts` with the positions of the found words left implicit. */
  lemma FoundOrPicks(l: string, table: seq<string>, fallback: string)
    requires fallback !in table
    ensures var r := FoundOr(l, table, fallback);
      && (r == [fallback] <==> forall w :: w in table ==> !Contains(l, w))
      && (r != [fallback] ==>
        && (forall w :: w in r <==> w in table && Contains(l, w))
        && exists idx :: PicksOf(r, table, idx))
  {
    var idx := FoundOrFacts(l, table, fallback);
  }

  const ChildWords: seq<string> := ["baby", "infant", "child"]
  const DigestWords: seq<string> := ["bloating", "stomach", "digest"]
  const DiabetesWords: seq<string> := ["sugar", "diabet"]
  const HeartWords: seq<string> := ["heart", "blood pressure"]

  const ProblemRules: seq<Rule> := [
    Rule(ChildWords, "child_health"), Rule(DigestWords, "digestive_issues"),
    Rule(DiabetesWords, "diabetes"), Rule(HeartWords, "heart_health")]

  /** `extract_problem_type(text)`: child > digestive > diabetes > heart >
      general health, the first group with a word in the text. */
  function ExtractProblemType(text: string): (r: string)
    ensures (forall k :: 0 <= k < |ProblemRules| ==> !ContainsAny(Lower(text), ProblemRules[k].words)) ==>
      r == "general_health"
    ensures forall k :: Wins(Lower(text), ProblemRules, k) ==> r == ProblemRules[k].outcome
  {
    Classify(Lower(text), ProblemRules, "general_health")
  }

  const ProductTypes: seq<string> := ["formula", "cereal", "yogurt", "milk", "cheese", "bread", "drink", "snack", "baby food"]

  /** `extract_product_type(text)`: the first product word, in list order,
      that the lowered text mentions, else "general". */
  function ExtractProductType(text: string): (r: string)
    ensures !ContainsAny(Lower(text), ProductTypes) ==> r == "general"
    ensures ContainsAny(Lower(text), ProductTypes) ==>
      exists k :: FirstWordIs(Lower(text), ProductTypes, k) && r == ProductTypes[k]
  {
    match FirstOccurring(Lower(text), ProductTypes)
    case Some(p) => p
    case None => "general"
  }

  /** The alternatives after the digits of `(\d+)\s*(month|months|monthly|mo)`. */
  const MonthUnits: seq<string> := ["month", "months", "monthly", "mo"]

  /** `extract_baby_age(text)`: the number of the first match of the month
      pattern on the original, case-sensitive text, else 6. */
  function ExtractBabyAge(text: string): (r: nat)
    ensures (forall i :: 0 <= i ==> !NumberWithUnitAt(text, i, MonthUnits)) ==> r == 6
    ensures (exists i :: 0 <= i && NumberWithUnitAt(text, i, MonthUnits)) ==>
      exists i :: FirstNumberAt(text, MonthUnits, 0, i) && r == DigitsValue(text[i..DigitRunEnd(text, i)])
  {
    NumberBeforeIsFirstMatch(text, MonthUnits, 0);
    match NumberBefore(text, MonthUnits, 0)
    case Some(n) => n
    case None => 6
  }

  /** What the loop over one user's recommendations appends: the text of a
      record's 'recommendation' key, or the entry itself. */
  function SolutionText(rec: RecEntry): string {
    match rec
    case RecDict(recommendation, _) => recommendation
    case RecText(text) => text
  }

  /** All solutions of the similar users, in order. */
  function AllSolutions(users: seq<Peer>): seq<string> {
    if users == [] then []
    else AllSolutions(users[..|users| - 1]) + Solutions(users[|users| - 1].successfulRecommendations)
  }

  function Solutions(recs: seq<RecEntry>): (r: seq<string>)
    ensures |r| == |recs| && forall k :: 0 <= k < |recs| ==> r[k] == SolutionText(recs[k])
  {
    if recs == [] then [] else [SolutionText(recs[0])] + Solutions(recs[1..])
  }

  function NonEmpty(s: string): bool { s != [] }

  /** `extract_common_solutions(similar_users)`: the three most frequent
      non-empty solutions, ties in first-seen order (the cut too keeps the
      first-seen of equal counts); no solution left out is more frequent
      than one listed, and fewer than three are listed only when every
      non-empty solution is. */
  function ExtractCommonSolutions(users: seq<Peer>): (r: seq<string>)
    ensures |r| <= 3 && NoDuplicates(r)
    ensures forall k :: 0 <= k < |r| ==> r[k] != [] && r[k] in AllSolutions(users)
    ensures forall i, j :: 0 <= i < j < |r| ==>
      Count(Filtered(NonEmpty, AllSolutions(users)), r[i]) >= Count(Filtered(NonEmpty, AllSolutions(users)), r[j])
    ensures IsMostCommon(r, Filtered(NonEmpty, AllSolutions(users)), 3)
  {
    var kept := Filtered(NonEmpty, AllSolutions(users));
    MostCommonIsMostCommon(kept, 3);
    FilteredMembers(NonEmpty, AllSolutions(users));
    MostCommon(kept, 3)
  }

  // ------------------------------------------------- prompt type and templates

  const ProductWords: seq<string> := ["product", "brand", "ingredient", "material"]
  const SymptomPromptWords: seq<string> := ["sick", "disease", "treatment", "medicine", "symptom", "pain", "hurt", "feel"]

  const PromptRules: seq<Rule> := [Rule(ProductWords, "product_analysis"), Rule(SymptomPromptWords, "symptom_analysis")]

  /** `determine_prompt_type(message)`: product > symptom > health advice. */
  function DeterminePromptType(message: string): (r: string)
    ensures ContainsAny(Lower(message), ProductWords) ==> r == "product_analysis"
    ensures !ContainsAny(Lower(message), ProductWords) && ContainsAny(Lower(message), SymptomPromptWords) ==>
      r == "symptom_analysis"
    ensures !ContainsAny(Lower(message), ProductWords) && !ContainsAny(Lower(message), SymptomPromptWords) ==>
      r == "health_advice"
  {
    var l := Lower(message);
    if ContainsAny(l, ProductWords) then
      assert Wins(l, PromptRules, 0);
      Classify(l, PromptRules, "health_advice")
    else if ContainsAny(l, SymptomPromptWords) then
      assert Wins(l, PromptRules, 1);
      Classify(l, PromptRules, "health_advice")
    else Classify(l, PromptRules, "health_advice")
  }

  /** The templates of `cot_prompts`. */
  datatype Template = HealthAdviceTemplate | ProductAnalysisTemplate | SymptomAnalysisTemplate

  /** The placeholders the templates use and the keyword arguments `format` is given. */
  datatype Slot =
    | Question | ProfileSlot | SegmentSlot | HistorySlot | ToolsSlot
    | RagContext | CommunityInsightsSlot | ProductInfo | SimilarUsersSlot

  /** The key of each template in `cot_prompts`. */
  function TemplateName(t: Template): string {
    match t
    case HealthAdviceTemplate => "health_advice_with_tools"
    case ProductAnalysisTemplate => "product_analysis_with_tools"
    case SymptomAnalysisTemplate => "symptom_analysis_with_tools"
  }

  /** `cot_prompts.get(key)`. */
  function TemplateNamed(key: string): (r: Option<Template>)
    ensures r.Some? ==> TemplateName(r.value) == key
  {
    if key == "health_advice_with_tools" then Some(HealthAdviceTemplate)
    else if key == "product_analysis_with_tools" then Some(ProductAnalysisTemplate)
    else if key == "symptom_analysis_with_tools" then Some(SymptomAnalysisTemplate)
    else None
  }

  /** The placeholders in each template's text. */
  function Placeholders(t: Template): set<Slot> {
    match t
    case HealthAdviceTemplate =>
      {Question, ProfileSlot, SegmentSlot, HistorySlot, ToolsSlot, RagContext, CommunityInsightsSlot}
    case ProductAnalysisTemplate =>
      {ProductInfo, Question, SegmentSlot, ToolsSlot, RagContext, CommunityInsightsSlot}
    case SymptomAnalysisTemplate =>
      {Question, ProfileSlot, SegmentSlot, SimilarUsersSlot, CommunityInsightsSlot}
  }

  /** The base prompt of `generate_enhanced_prompt`: the template keyed by the
      prompt type plus `"_with_tools"`, else the health-advice template. */
  function TemplateFor(promptType: string): Template {
    match TemplateNamed(promptType + "_with_tools")
    case Some(t) => t
    case None => HealthAdviceTemplate
  }

  /** The keyword arguments each branch of `generate_enhanced_prompt` passes
      to `format`. */
  function Supplied(promptType: string): set<Slot> {
    if promptType == "health_advice" then
      {Question, ProfileSlot, SegmentSlot, HistorySlot, ToolsSlot, RagContext, CommunityInsightsSlot}
    else if promptType == "symptom_analysis" then
      {Question, ProfileSlot, SegmentSlot, SimilarUsersSlot, CommunityInsightsSlot}
    else
      {Question, ProductInfo, SegmentSlot, ToolsSlot, RagContext, CommunityInsightsSlot}
  }

  /** For every message, the prompt type has a template of its own (the
      fallback never fires) and `format` is given every placeholder of that
      template, so it cannot fail on a missing key. */
  lemma PromptFilled(message: string)
    ensures var pt := DeterminePromptType(message);
      TemplateName(TemplateFor(pt)) == pt + "_with_tools" && Placeholders(TemplateFor(pt)) <= Supplied(pt)
  {
    var pt := DeterminePromptType(message);
    if pt == "product_analysis" {
      assert pt + "_with_tools" == "product_analysis_with_tools";
    } else if pt == "symptom_analysis" {
      assert pt + "_with_tools" == "symptom_analysis_with_tools";
    } else {
      assert pt + "_with_tools" == "health_advice_with_tools";
    }
  }

  // ----------------------------------------------------------- tool detection

  const SimilarWords: seq<string> := ["similar", "other", "another", "same", "else"]
  const IngredientWords: seq<string> := ["ingredient", "content", "material", "contains"]
  const PhotoWords: seq<string> := ["photo", "image", "picture"]
  const BabyWords: seq<string> := ["baby", "child", "infant", "toddler"]
  const RiskWords: seq<string> := ["risk", "safe", "dangerous", "healthy"]
  const SymptomWords: seq<string> := ["bloating", "pain", "hurt", "symptom", "feel bad"]

  /** Which of the `if any(...)` tests of `detect_tool_requirements` hold. */
  datatype Asks = Asks(similar: bool, ingredient: bool, photo: bool, baby: bool, risk: bool, symptom: bool)

  /** The tests on the lowered message. */
  function AsksOf(l: string): Asks {
    Asks(ContainsAny(l, SimilarWords), ContainsAny(l, IngredientWords), ContainsAny(l, PhotoWords),
         ContainsAny(l, BabyWords), ContainsAny(l, RiskWords), ContainsAny(l, SymptomWords))
  }

  /** The tools `detect_tool_requirements` appends, in append order, before
      the list is turned into a set. */
  function Requested(a: Asks): seq<Tool> {
    (if a.similar then [SimilarUsersTool] else [])
    + (if a.ingredient then [IngredientsTool] else [])
    + (if a.photo then [ImageTool] else [])
    + (if a.baby then [BabySafetyTool, AgeAdviceTool] else [])
    + (if a.risk then [NutritionRiskTool] else [])
    + (if a.symptom then [SimilarUsersTool] else [])
    + [UserProfileTool]
  }

  /** Exactly the tools the tests ask for: the profile always; the
      similar-users tool for a comparison or a symptom word; both baby tools
      together; and so never the community tool. */
  lemma RequestedTools(a: Asks)
    ensures forall t :: t in Requested(a) <==>
      || t == UserProfileTool
      || (t == SimilarUsersTool && (a.similar || a.symptom))
      || (t == IngredientsTool && a.ingredient)
      || (t == ImageTool && a.photo)
      || ((t == BabySafetyTool || t == AgeAdviceTool) && a.baby)
      || (t == NutritionRiskTool && a.risk)
  {
  }

  /** The names of a list of tools, in order. */
  function Names(ts: seq<Tool>): (r: seq<string>)
    ensures |r| == |ts| && forall i :: 0 <= i < |ts| ==> r[i] == ToolName(ts[i])
  {
    if ts == [] then [] else [ToolName(ts[0])] + Names(ts[1..])
  }

  /** A tool's name is listed exactly when the tool is, and only tool names
      are listed. */
  lemma NamesMembers(ts: seq<Tool>)
    ensures forall t :: ToolName(t) in Names(ts) <==> t in ts
    ensures forall x :: x in Names(ts) ==> ToolNamed(x).Some? && ToolNamed(x).value in ts
  {
    ToolNamedFacts();
    forall t | ToolName(t) in Names(ts) ensures t in ts {
      var i :| 0 <= i < |ts| && Names(ts)[i] == ToolName(t);
      ToolNamesDistinct(ts[i], t);
    }
  }

  /** `list(set(xs))`: every element once, in an order the model leaves open. */
  method ListOfSet<T(==)>(xs: seq<T>) returns (r: seq<T>)
    ensures NoDuplicates(r)
    ensures forall x :: x in r <==> x in xs
  {
    var left := set x | x in xs;
    r := [];
    while left != {}
      invariant NoDuplicates(r)
      invariant forall x :: x in left ==> x in xs
      invariant forall x :: x in r <==> x in xs && x !in left
      decreases |left|
    {
      var x :| x in left;
      r := r + [x];
      left := left - {x};
    }
  }

  // --------------------------------------------------------------- tool loop

  /** What `execute_tools` stores under a tool's name. */
  datatype Entry =
    | Output(result: ToolResult)
    | Similar(similarUsersCount: nat, users: seq<Peer>, commonSolutions: seq<string>)
    | ToolError(text: string)

  /** The `except` branch: an exception becomes its message. */
  function FromRaises(r: Raises<ToolResult>): (e: Entry)
    ensures r.Returns? ==> e == Output(r.value)
    ensures r.Raised? ==> e == ToolError("Tool error: " + r.error)
  {
    match r
    case Returns(v) => Output(v)
    case Raised(err) => ToolError("Tool error: " + err)
  }

  const NeedsUpload := "Image analysis requires uploaded image"

  /** The handlers one call of `execute_tools` uses, bound to its message
      and the caller's profile: the profile itself, the memory agent's
      similar users for a cut of 5, the ingredients found in the message,
      the two analysis tools, the age advice, the baby age found in the
      message and the baby-safety tool. */
  datatype Handlers = Handlers(
    profile: UserInfo,
    similar: seq<Peer>,
    ingredients: Option<string>,
    analyze: string -> Raises<ToolResult>,
    risk: string -> Raises<ToolResult>,
    advice: string,
    babyAge: nat,
    babySafety: (string, nat) -> Raises<ToolResult>)

  /** `if ingredients:` on what `extract_ingredients_from_text` found. */
  predicate Found(ingredients: Option<string>) {
    ingredients.Some? && ingredients.value != []
  }

  /** The entry the loop body of `execute_tools` stores for one tool name;
      `None` where it stores nothing. */
  function EntryOf(name: string, h: Handlers): Option<Entry> {
    match ToolNamed(name)
    case Some(UserProfileTool) => Some(Output(UserProfileResult(h.profile)))
    case Some(SimilarUsersTool) =>
      Some(Similar(|h.similar|, PyTake(h.similar, 3), ExtractCommonSolutions(h.similar)))
    case Some(IngredientsTool) =>
      if Found(h.ingredients) then Some(FromRaises(h.analyze(h.ingredients.value))) else None
    case Some(ImageTool) => Some(Output(Message(NeedsUpload)))
    case Some(NutritionRiskTool) =>
      if Found(h.ingredients) then Some(FromRaises(h.risk(h.ingredients.value))) else None
    case Some(AgeAdviceTool) => Some(Output(Plain(h.advice)))
    case Some(BabySafetyTool) =>
      if InfoHasChildren(h.profile) && Found(h.ingredients) && h.babyAge != 0
      then Some(FromRaises(h.babySafety(h.ingredients.value, h.babyAge)))
      else None
    case Some(CommunityTool) => None
    case None => None
  }

  /** The map `execute_tools` builds over `required`, in loop order. */
  function ToolResults(required: seq<string>, h: Handlers): map<string, Entry> {
    if required == [] then map[]
    else
      var t := required[|required| - 1];
      var m := ToolResults(required[..|required| - 1], h);
      match EntryOf(t, h)
      case Some(e) => m[t := e]
      case None => m
  }

  /** The `for tool in required_tools` loop of `execute_tools`. */
  method CollectResults(required: seq<string>, h: Handlers) returns (results: map<string, Entry>)
    ensures results == ToolResults(required, h)
  {
    results := map[];
    for i := 0 to |required|
      invariant results == ToolResults(required[..i], h)
    {
      assert required[..i + 1][..i] == required[..i];
      match EntryOf(required[i], h) {
        case Some(e) => results := results[required[i] := e];
        case None =>
      }
    }
    assert required[..|required|] == required;
  }

  /** What `ToolResults` holds: an entry exactly for the required names whose
      loop body stores one, and under each name the entry its body computes
      (a name required twice stores the same entry twice). */
  lemma {:induction false} ToolResultsEntries(required: seq<string>, h: Handlers)
    ensures forall t :: t in ToolResults(required, h) <==> t in required && EntryOf(t, h).Some?
    ensures forall t :: t in ToolResults(required, h) ==> ToolResults(required, h)[t] == EntryOf(t, h).value
  {
    if required != [] {
      var init := required[..|required| - 1];
      ToolResultsEntries(init, h);
      assert required == init + [required[|required| - 1]];
    }
  }

  /** Which names get no entry: unknown names and the community tool; the
      two analysis tools and the baby tool when no ingredients follow a
      keyword; the baby tool for a profile without children or a baby age
      of 0. */
  lemma EntryGaps(h: Handlers)
    ensures forall t :: ToolNamed(t).None? ==> EntryOf(t, h).None?
    ensures EntryOf(ToolName(CommunityTool), h).None?
    ensures !Found(h.ingredients) ==>
      && EntryOf(ToolName(IngredientsTool), h).None?
      && EntryOf(ToolName(NutritionRiskTool), h).None?
      && EntryOf(ToolName(BabySafetyTool), h).None?
    ensures !InfoHasChildren(h.profile) || h.babyAge == 0 ==> EntryOf(ToolName(BabySafetyTool), h).None?
  {
    ToolNamedFacts();
  }

  /** The entries that are always stored, and what they hold: the profile,
      the similar-user summary with at most its first 3 users, the upload
      message, the age advice; none of them is an error. */
  lemma EntryValues(h: Handlers)
    ensures EntryOf(ToolName(UserProfileTool), h) == Some(Output(UserProfileResult(h.profile)))
    ensures EntryOf(ToolName(ImageTool), h) == Some(Output(Message(NeedsUpload)))
    ensures EntryOf(ToolName(AgeAdviceTool), h) == Some(Output(Plain(h.advice)))
    ensures EntryOf(ToolName(SimilarUsersTool), h).Some?
    ensures var e := EntryOf(ToolName(SimilarUsersTool), h).value;
      && e.Similar? && e.similarUsersCount == |h.similar|
      && |e.users| == (if |h.similar| < 3 then |h.similar| else 3)
      && e.users <= h.similar
      && e.commonSolutions == ExtractCommonSolutions(h.similar)
  {
    ToolNamedFacts();
  }

  /** The per-tool failure boundary: once ingredients were found, an
      analysis tool's entry is an error exactly when its handler raised,
      the text carrying the exception's message, and the handler's result
      otherwise; likewise for the baby tool. */
  lemma EntryErrors(h: Handlers)
    requires Found(h.ingredients)
    ensures var e := EntryOf(ToolName(IngredientsTool), h).value;
      && EntryOf(ToolName(IngredientsTool), h).Some?
      && (e.ToolError? <==> h.analyze(h.ingredients.value).Raised?)
      && (e.ToolError? ==> e.text == "Tool error: " + h.analyze(h.ingredients.value).error)
      && (e.Output? ==> e.result == h.analyze(h.ingredients.value).value)
    ensures var e := EntryOf(ToolName(NutritionRiskTool), h).value;
      && EntryOf(ToolName(NutritionRiskTool), h).Some?
      && (e.ToolError? <==> h.risk(h.ingredients.value).Raised?)
      && (e.ToolError? ==> e.text == "Tool error: " + h.risk(h.ingredients.value).error)
    ensures InfoHasChildren(h.profile) && h.babyAge != 0 ==>
      EntryOf(ToolName(BabySafetyTool), h) == Some(FromRaises(h.babySafety(h.ingredients.value, h.babyAge)))
  {
    ToolNamedFacts();
  }

  /** One history turn. */
  datatype Turn = Turn(role: string, message: string, timestamp: string)

  /** The cap `add_to_history` keeps each history to. */
  const HistoryCap := 20

  /** A history after one more turn, cut to its last 20 turns. */
  function Appended(h: seq<Turn>, t: Turn): (r: seq<Turn>)
    ensures |r| == if |h| < HistoryCap then |h| + 1 else HistoryCap
    ensures r == (h + [t])[|h| + 1 - |r|..]
    ensures r[|r| - 1] == t
  {
    var g := h + [t];
    if |g| > HistoryCap then g[|g| - HistoryCap..] else g
  }

  /** The history stored for `uid`, empty when there is none. */
  function Prior(m: map<UserId, seq<Turn>>, uid: UserId): seq<Turn> {
    if uid in m then m[uid] else []
  }

  class ChatbotAgent {
    /** The tool table, built over the same memory agent. */
    const tools: ChatbotTools
    /** The memory agent. */
    const memory: MemoryAgent
    /** `conversation_histories`. */
    var histories: map<UserId, seq<Turn>>

    ghost predicate Valid()
      reads this, memory
    {
      && tools.memory == memory
      && memory.Valid()
      && Known()
      && forall u :: u in histories ==> |histories[u]| <= HistoryCap
    }

    /** Every id in the memory agent's table order has a profile: all that
        the tool loop's reads need of the memory agent. */
    predicate Known()
      reads memory
    {
      forall i :: 0 <= i < |memory.order| ==> memory.order[i] in memory.profiles
    }

    /** `ChatbotAgent(rag_agent, memory_agent, vision_agent)`; the vision
        agent is never read by anything modelled here. */
    constructor (rag: Option<RagAgent>, memory: MemoryAgent)
      requires memory.Valid()
      ensures Valid()
      ensures this.memory == memory && tools.rag == rag && histories == map[]
    {
      this.memory := memory;
      tools := new ChatbotTools(rag, memory);
      histories := map[];
    }

    /** `add_to_history(user_id, role, message)`, with `now` for the clock. */
    method AddToHistory(uid: UserId, role: string, message: string, now: string)
      requires Valid()
      modifies this
      ensures Valid()
      ensures histories == old(histories)[uid := Appended(Prior(old(histories), uid), Turn(role, message, now))]
    {
      var h := Prior(histories, uid);
      var g := Appended(h, Turn(role, message, now));
      assert |g| <= HistoryCap;
      histories := histories[uid := g];
    }

    /** `get_conversation_history(user_id, max_messages)` (the default is
        10): the last `max_messages` turns, after creating an empty history
        for an unknown user. `[-0:]` is the whole history. */
    method GetConversationHistory(uid: UserId, maxMessages: int) returns (r: seq<Turn>)
      requires Valid()
      modifies this
      ensures Valid()
      ensures histories == if uid in old(histories) then old(histories) else old(histories)[uid := []]
      ensures var h := Prior(old(histories), uid);
        && |r| <= |h| && r == h[|h| - |r|..]
        && (maxMessages > 0 ==> |r| == if maxMessages < |h| then maxMessages else |h|)
        && (maxMessages == 0 ==> r == h)
        && r == PyLast(h, maxMessages)
    {
      if uid !in histories {
        histories := histories[uid := []];
      }
      if maxMessages > 0 {
        PyLastPositive(histories[uid], maxMessages);
      }
      r := PyLast(histories[uid], maxMessages);
    }

    /** The handlers the loop body of `execute_tools` calls, bound to the
        message, the caller's profile fetched before the loop and the memory
        agent's table, which nothing in the loop changes. */
    function HandlersFor(uid: UserId, info: UserInfo, message: string): Handlers
      reads memory
      requires Known()
    {
      Handlers(
        info,
        SimilarUsers(memory.profiles, memory.order, uid, 5),
        ExtractIngredientsFromText(message),
        ingredients => tools.AnalyzeIngredients(ingredients, info),
        ingredients => tools.CalculateNutritionRisk(ingredients, info),
        AgeAdvice(InfoAgeGroup(info), ExtractProductType(message)),
        ExtractBabyAge(message),
        (ingredients, age) => tools.CheckBabySafety(ingredients, age))
    }

    /** `execute_tools(user_id, required_tools, message)`: fetches (and so
        creates or refreshes) the caller's profile once, then stores one entry
        per tool whose branch produces one. */
    method ExecuteTools(uid: UserId, required: seq<string>, message: string, now: string) returns (results: map<string, Entry>)
      requires Valid()
      modifies memory
      ensures Valid()
      ensures memory.profiles == old(memory.profiles)[uid := Accessed(old(memory.profiles), uid, now)]
      ensures memory.order == if uid in old(memory.profiles) then old(memory.order) else old(memory.order) + [uid]
      ensures results == ToolResults(required, HandlersFor(uid, Stored(Accessed(old(memory.profiles), uid, now)), message))
    {
      var info := tools.GetUserProfile(uid, now);
      assert Known();
      results := CollectResults(required, HandlersFor(uid, info, message));
    }

    /** `detect_tool_requirements(message, user_profile)` as written: the
        symptom report goes to the id `'unknown'`, since no profile carries a
        `'user_id'` key, and the result is the distinct requested names. */
    method DetectToolRequirements(message: string, info: UserInfo, now: string) returns (required: seq<string>)
      requires Valid()
      modifies memory
      ensures Valid()
      ensures NoDuplicates(required) && forall t :: t in required <==> t in Names(Requested(AsksOf(Lower(message))))
      ensures ContainsAny(Lower(message), SymptomWords) ==>
        memory.profiles == old(memory.profiles)[UnknownUser := Reassigned(Accessed(old(memory.profiles), UnknownUser, now))]
      ensures ContainsAny(Lower(message), SymptomWords) ==>
        memory.order == if UnknownUser in old(memory.profiles) then old(memory.order) else old(memory.order) + [UnknownUser]
      ensures !ContainsAny(Lower(message), SymptomWords) ==> unchanged(memory)
    {
      required := RequiredFor(UnknownUser, message, now);
    }

    /** The evidently intended detection: the symptom report goes to the
        user who wrote the message. */
    method DetectToolRequirementsFor(uid: UserId, message: string, now: string) returns (required: seq<string>)
      requires Valid()
      modifies memory
      ensures Valid()
      ensures NoDuplicates(required) && forall t :: t in required <==> t in Names(Requested(AsksOf(Lower(message))))
      ensures ContainsAny(Lower(message), SymptomWords) ==>
        memory.profiles == old(memory.profiles)[uid := Reassigned(Accessed(old(memory.profiles), uid, now))]
      ensures ContainsAny(Lower(message), SymptomWords) ==>
        memory.order == if uid in old(memory.profiles) then old(memory.order) else old(memory.order) + [uid]
      ensures !ContainsAny(Lower(message), SymptomWords) ==> unchanged(memory)
    {
      required := RequiredFor(uid, message, now);
    }

    /** The body of the detection, reporting symptoms on `reportTo`. */
    method RequiredFor(reportTo: UserId, message: string, now: string) returns (required: seq<string>)
      requires Valid()
      modifies memory
      ensures Valid()
      ensures NoDuplicates(required) && forall t :: t in required <==> t in Names(Requested(AsksOf(Lower(message))))
      ensures ContainsAny(Lower(message), SymptomWords) ==>
        memory.profiles == old(memory.profiles)[reportTo := Reassigned(Accessed(old(memory.profiles), reportTo, now))]
      ensures ContainsAny(Lower(message), SymptomWords) ==>
        memory.order == if reportTo in old(memory.profiles) then old(memory.order) else old(memory.order) + [reportTo]
      ensures !ContainsAny(Lower(message), SymptomWords) ==> unchanged(memory)
    {
      var l := Lower(message);
      if ContainsAny(l, SymptomWords) {
        ReportSymptom(reportTo, now);
      }
      required := ListOfSet(Names(Requested(AsksOf(l))));
    }

    /** `update_from_chat_interaction(id, "symptom_report", "neutral")`: the
        profile is fetched (created or refreshed) and its segment reassigned;
        the report itself changes nothing. */
    method ReportSymptom(reportTo: UserId, now: string)
      requires Valid()
      modifies memory
      ensures Valid()
      ensures memory.profiles == old(memory.profiles)[reportTo := Reassigned(Accessed(old(memory.profiles), reportTo, now))]
      ensures memory.order == if reportTo in old(memory.profiles) then old(memory.order) else old(memory.order) + [reportTo]
    {
      ChatEffectIsIdentity(Accessed(memory.profiles, reportTo, now), SymptomReport);
      memory.UpdateFromChatInteraction(reportTo, SymptomReport, "neutral", now);
    }
  }

  /** The id the symptom report goes to. */
  const UnknownUser: UserId := "unknown"
  const SymptomReport := "symptom_report"

  /** Each tool's name leads back to that tool. */
  lemma ToolNamedFacts()
    ensures forall t :: ToolNamed(ToolName(t)) == Some(t)
  {
    forall t: Tool ensures ToolNamed(ToolName(t)) == Some(t) {
      var u := ToolNamed(ToolName(t));
      assert u.Some?;
      ToolNamesDistinct(u.value, t);
    }
  }
}
