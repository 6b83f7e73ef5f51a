/** rag_agent.py: the RAG analysis agent.  The vector store and the LLM
    chain are oracles held by `RagAgent`; what is modelled is the logic around
    them: the per-diet retrieval queries, the fail-closed marker parser of the
    LLM's answer with its per-diet hazard-term fallback, the per-preference
    analysis map, the risk score and the baby age brackets. */
module Rag {
  import opened Common
  import opened Text
  import opened Ranking

  // ------------------------------------------------------------------ entities

  datatype RiskLevel = Low | Medium | High | UnknownRisk

  /** The strings the source stores under `risk_level`. */
  function RiskName(r: RiskLevel): string {
    match r
    case Low => "LOW"
    case Medium => "MEDIUM"
    case High => "HIGH"
    case UnknownRisk => "UNKNOWN"
  }

  /** The dictionary `parse_llm_response` and its fallbacks return. */
  datatype Verdict = Verdict(suitable: bool, riskLevel: RiskLevel, explanation: string,
                             hazardousIngredients: seq<string>)

  /** The agent's environment: whether the vector store was built, its
      `similarity_search(query, k)` (the page contents of the hits, or the
      message of the exception it raises) and the analysis chain, which
      answers for (ingredients, diet, hazard_info) with a text or fails with
      an exception message. */
  datatype RagAgent = RagAgent(vectorReady: bool,
                               search: (string, nat) -> Raises<seq<string>>,
                               llm: (string, string, string) -> LlmOutcome)

  // ------------------------------------------------------------ diet retrieval

  /** The retrieval query of each diet key. */
  const DietQueries: seq<(string, string)> := [
    ("celiac", "gluten wheat barley rye celiac disease autoimmune"),
    ("diabetes", "sugar glucose fructose carbohydrates glycemic insulin"),
    ("vegan", "vegan animal milk egg honey gelatin dairy"),
    ("vegetarian", "vegetarian meat fish chicken poultry gelatin"),
    ("lactose", "lactose milk dairy cheese whey intolerance"),
    ("nut_allergy", "nut peanut almond walnut hazelnut allergy anaphylaxis"),
    ("soy_allergy", "soy soybean tofu soybeans allergy"),
    ("heart_disease", "saturated fat cholesterol sodium salt heart cardiovascular"),
    ("hypertension", "sodium salt blood pressure hypertension"),
    ("baby_0_6", "infant formula breast milk 0-6 months honey salt sugar"),
    ("baby_6_8", "6-8 months puree salt sugar honey egg whites"),
    ("baby_8_12", "8-12 months soft foods choking hazards salt sugar")
  ]

  const NotReady := "Vector database not ready"
  const NothingRelevant := "No relevant information found"
  const UnknownDiet := "Diet information not found"

  /** `extract_diet_info`: the three best hits for the diet's query, one per
      line, or the search's exception.  The hazard knowledge handed to the LLM
      is never empty: each way of not finding any has its own message. */
  function DietInfo(agent: RagAgent, diet: string): (info: Raises<string>)
    ensures info.Returns? ==> info.value != []
    ensures !agent.vectorReady ==> info == Returns(NotReady)
    ensures agent.vectorReady && Lookup(DietQueries, diet).None? ==> info == Returns(UnknownDiet)
    ensures info.Raised? <==> agent.vectorReady && Lookup(DietQueries, diet).Some?
                              && agent.search(Lookup(DietQueries, diet).value, 3).Raised?
    ensures info.Raised? ==> info == Raised(agent.search(Lookup(DietQueries, diet).value, 3).error)
    ensures agent.vectorReady && Lookup(DietQueries, diet).Some?
            && agent.search(Lookup(DietQueries, diet).value, 3).Returns? ==>
      var hits := Join(agent.search(Lookup(DietQueries, diet).value, 3).value, "\n");
      info == Returns(if hits == [] then NothingRelevant else hits)
  {
    if !agent.vectorReady then Returns(NotReady)
    else match Lookup(DietQueries, diet)
      case None => Returns(UnknownDiet)
      case Some(query) =>
        match agent.search(query, 3)
        case Raised(e) => Raised(e)
        case Returns(docs) =>
          var hits := Join(docs, "\n");
          Returns(if hits == [] then NothingRelevant else hits)
  }

  // ------------------------------------------------------------ marker parser

  const SuitableYes := "suitable: yes"
  const SuitableYesTight := "suitable:yes"
  const RiskLow := "risk_level: low"
  const RiskMedium := "risk_level: medium"
  const HazardMarker := "hazardous_ingredients:"
  const ExplanationMarker := "explanation:"
  const NoneWord := "none"
  const NoExplanation := "Analysis incomplete"
  const NoHazards := "No hazardous ingredients detected"

  /** The lowered answer declares the product suitable. */
  predicate SaysSuitable(l: string) {
    Contains(l, SuitableYes) || Contains(l, SuitableYesTight)
  }

  /** The first risk marker found, in the order low, medium; HIGH otherwise. */
  function RiskOf(l: string): (r: RiskLevel)
    ensures r == Low <==> Contains(l, RiskLow)
    ensures r == Medium <==> !Contains(l, RiskLow) && Contains(l, RiskMedium)
    ensures r != UnknownRisk
  {
    if Contains(l, RiskLow) then Low else if Contains(l, RiskMedium) then Medium else High
  }

  /** `[e, |l|)` or `[e, first explanation marker)` ends a span opened at `s`. */
  predicate SpanEnds(l: string, s: int, e: int) {
    0 <= s <= e <= |l|
    && (forall i :: s <= i < e ==> !OccursAt(l, ExplanationMarker, i))
    && (e == |l| || OccursAt(l, ExplanationMarker, e))
  }

  /** The bounds of the hazard span in the lowered answer: from just after the
      first hazard marker to the first explanation marker after it, or to the
      end of the text. */
  function HazardBounds(l: string): (b: Option<(int, int)>)
    ensures b.None? <==> !Contains(l, HazardMarker)
    ensures b.Some? ==> b.value.0 == Find(l, HazardMarker) + |HazardMarker|
                        && SpanEnds(l, b.value.0, b.value.1)
  {
    if !Contains(l, HazardMarker) then None
    else
      var s := Find(l, HazardMarker) + |HazardMarker|;
      var e := FindFrom(l, ExplanationMarker, s);
      Some((s, if e == -1 then |l| else e))
  }

  /** Non-empty, and neither starting nor ending with whitespace. */
  predicate Stripped(x: string) {
    x != [] && !IsSpace(x[0]) && !IsSpace(x[|x| - 1])
  }

  /** `[p.strip() for p in pieces if p.strip()]`. */
  function Cleaned(pieces: seq<string>): (r: seq<string>)
    ensures |r| <= |pieces|
    ensures forall k :: 0 <= k < |r| ==> Stripped(r[k])
  {
    if pieces == [] then []
    else
      var p := Strip(pieces[0]);
      var rest := Cleaned(pieces[1..]);
      if p == [] then rest else
        var r := [p] + rest;
        assert forall k | 1 <= k < |r| :: r[k] == rest[k - 1];
        r
  }

  /** The hazards listed in the answer's hazard span, read on the original
      text: nothing when there is no span or the span mentions "none". */
  function Listed(response: string): seq<string> {
    var l := Lower(response);
    match HazardBounds(l)
    case None => []
    case Some((s, e)) =>
      ListedIn(Strip(response[s..e]))
  }

  /** The comma-separated names of a hazard span, or nothing if it mentions
      "none". */
  function ListedIn(text: string): seq<string> {
    if Contains(Lower(text), NoneWord) then [] else Cleaned(Split(text, ','))
  }

  /** The stripped text after the first explanation marker, or the sentinel
      when the answer has none. */
  function ExplanationOf(response: string): (r: string)
    ensures !Contains(Lower(response), ExplanationMarker) ==> r == NoExplanation
  {
    var l := Lower(response);
    if Contains(l, ExplanationMarker) then Strip(response[Find(l, ExplanationMarker) + |ExplanationMarker|..])
    else NoExplanation
  }

  /** The hazard terms scanned for when the answer lists none. */
  const DietHazards: seq<(string, seq<string>)> := [
    ("celiac", ["wheat", "gluten", "barley", "rye", "oats", "malt"]),
    ("diabetes", ["sugar", "glucose", "fructose", "sucrose", "syrup", "honey"]),
    ("vegan", ["milk", "egg", "honey", "gelatin", "cheese", "yogurt"]),
    ("vegetarian", ["meat", "fish", "chicken", "beef", "pork", "gelatin"]),
    ("lactose", ["milk", "cheese", "yogurt", "whey", "lactose", "dairy"]),
    ("nut_allergy", ["peanut", "almond", "walnut", "hazelnut", "cashew", "pistachio"]),
    ("soy_allergy", ["soy", "soybean", "tofu", "soy lecithin", "soy protein"]),
    ("heart_disease", ["saturated fat", "trans fat", "cholesterol", "sodium", "salt"]),
    ("hypertension", ["sodium", "salt", "msg", "monosodium glutamate"]),
    ("baby_0_6", ["honey", "salt", "sugar", "cow milk"]),
    ("baby_6_8", ["honey", "salt", "sugar", "egg whites", "nuts"]),
    ("baby_8_12", ["honey", "salt", "sugar", "choking hazards"])
  ]

  /** The test of the fallback scan: the term occurs in `l`. */
  function OccursIn(l: string): string -> bool {
    t => Contains(l, t)
  }

  /** The terms that occur in `l`, in the order of `terms`. */
  function Matching(l: string, terms: seq<string>): seq<string> {
    Filtered(OccursIn(l), terms)
  }

  /** The hazards the answer lists, or else the diet's table terms found
      anywhere in the lowered answer. */
  function Hazards(response: string, diet: string): seq<string> {
    var listed := Listed(response);
    if listed == [] && Lookup(DietHazards, diet).Some? then Matching(Lower(response), Lookup(DietHazards, diet).value)
    else listed
  }

  /** `parse_llm_response`: every field starts from its fail-closed default
      (not suitable, HIGH, "Analysis incomplete") and only a marker moves it;
      the hazard list is never empty. */
  function Parse(response: string, diet: string): (v: Verdict)
    ensures v.suitable <==> SaysSuitable(Lower(response))
    ensures v.riskLevel == RiskOf(Lower(response))
    ensures v.explanation == ExplanationOf(response)
    ensures v.hazardousIngredients != []
    ensures Hazards(response, diet) != [] ==> v.hazardousIngredients == Hazards(response, diet)
    ensures Hazards(response, diet) == [] ==> v.hazardousIngredients == [NoHazards]
  {
    var hazards := Hazards(response, diet);
    Verdict(SaysSuitable(Lower(response)), RiskOf(Lower(response)), ExplanationOf(response),
            if hazards == [] then [NoHazards] else hazards)
  }

  /** `parse_llm_response`, step by step: defaults, the marker tests, the span
      extraction, then the fallback scan over the diet's table. */
  method ParseLlmResponse(response: string, diet: string) returns (v: Verdict)
    ensures v == Parse(response, diet)
  {
    var lower := Lower(response);
    var suitable := false;
    var risk := High;
    if Contains(lower, SuitableYes) || Contains(lower, SuitableYesTight) {
      suitable := true;
    }
    if Contains(lower, RiskLow) {
      risk := Low;
    } else if Contains(lower, RiskMedium) {
      risk := Medium;
    }
    var hazards := ExtractListed(response, lower);
    var explanation := ExtractExplanation(response, lower);
    hazards := WithFallback(response, lower, hazards, diet);
    v := Verdict(suitable, risk, explanation, if hazards == [] then [NoHazards] else hazards);
  }

  /** The stripped text after the first explanation marker, or the sentinel. */
  method ExtractExplanation(response: string, lower: string) returns (explanation: string)
    requires lower == Lower(response)
    ensures explanation == ExplanationOf(response)
  {
    explanation := NoExplanation;
    if Contains(lower, ExplanationMarker) {
      explanation := Strip(response[Find(lower, ExplanationMarker) + |ExplanationMarker|..]);
    }
  }

  /** The listed hazards, or the diet table's terms found in the answer. */
  method WithFallback(response: string, lower: string, listed: seq<string>, diet: string)
    returns (hazards: seq<string>)
    requires lower == Lower(response) && listed == Listed(response)
    ensures hazards == Hazards(response, diet)
  {
    hazards := listed;
    var table := Lookup(DietHazards, diet);
    if hazards == [] && table.Some? {
      hazards := Scan(lower, table.value);
    }
  }

  /** The hazard span of the answer, split on commas, unless it says "none". */
  method ExtractListed(response: string, lower: string) returns (hazards: seq<string>)
    requires lower == Lower(response)
    ensures hazards == Listed(response)
  {
    hazards := [];
    if Contains(lower, HazardMarker) {
      var start := Find(lower, HazardMarker) + |HazardMarker|;
      var end := FindFrom(lower, ExplanationMarker, start);
      if end == -1 {
        end := |response|;
      }
      var text := Strip(response[start..end]);
      if !Contains(Lower(text), NoneWord) {
        hazards := Cleaned(Split(text, ','));
      }
    }
  }

  /** The fallback scan: every term found in `l` is appended, in table order. */
  method Scan(l: string, terms: seq<string>) returns (found: seq<string>)
    ensures found == Matching(l, terms)
  {
    found := [];
    for i := 0 to |terms|
      invariant found == Matching(l, terms[..i])
    {
      assert terms[..i + 1][..i] == terms[..i];
      if Contains(l, terms[i]) {
        found := found + [terms[i]];
      }
    }
    assert terms[..|terms|] == terms;
  }

  /** The fallback keeps the terms in table order: the result is the
      subsequence of `terms` at the strictly increasing indices `idx`. */
  lemma MatchingIsFilter(l: string, terms: seq<string>) returns (idx: seq<nat>)
    ensures PicksOf(Matching(l, terms), terms, idx)
  {
    idx := FilteredIndices(OccursIn(l), terms);
  }

  /** ... and it keeps exactly the terms that occur in `l`. */
  lemma MatchingMembers(l: string, terms: seq<string>)
    ensures forall x :: x in Matching(l, terms) <==> x in terms && Contains(l, x)
  {
    FilteredMembers(OccursIn(l), terms);
  }

  /** Joined pieces start with the first piece and end with the last one. */
  lemma {:induction false} JoinEnds(xs: seq<string>, sep: string)
    requires xs != [] && forall k :: 0 <= k < |xs| ==> xs[k] != []
    ensures Join(xs, sep) != []
    ensures Join(xs, sep)[0] == xs[0][0]
    ensures Join(xs, sep)[|Join(xs, sep)| - 1] == xs[|xs| - 1][|xs[|xs| - 1]| - 1]
  {
    if |xs| > 1 {
      JoinEnds(xs[1..], sep);
    }
  }

  /** Pieces that are already stripped and non-empty are kept as they are. */
  lemma {:induction false} CleanedKeeps(xs: seq<string>)
    requires forall k :: 0 <= k < |xs| ==> Stripped(xs[k])
    ensures Cleaned(xs) == xs
  {
    if xs != [] {
      StripUnchanged(xs[0]);
      CleanedKeeps(xs[1..]);
    }
  }

  /** A non-empty listed span is what the verdict reports. */
  lemma ListedWins(response: string, diet: string)
    requires Listed(response) != []
    ensures Hazards(response, diet) == Listed(response)
    ensures Parse(response, diet).hazardousIngredients == Listed(response)
  {
  }

  /** Round trip: an answer whose hazard section lists stripped, comma-free
      names (none of them mentioning "none", and no explanation marker after
      them) is read back as exactly that list; by `ListedWins` the verdict
      then reports that list, whatever the diet. */
  lemma ListedRoundTrip(xs: seq<string>)
    requires xs != []
    requires forall k :: 0 <= k < |xs| ==> Stripped(xs[k]) && ',' !in xs[k]
    requires !Contains(Lower(Join(xs, ",")), NoneWord)
    requires !Contains(Lower(Join(xs, ",")), ExplanationMarker)
    ensures Listed(HazardMarker + Join(xs, ",")) == xs
  {
    ListedAfterMarker(Join(xs, ","));
    JoinedListed(xs);
  }

  /** The joined names, read as a hazard span, give the names back. */
  lemma JoinedListed(xs: seq<string>)
    requires xs != []
    requires forall k :: 0 <= k < |xs| ==> Stripped(xs[k]) && ',' !in xs[k]
    requires !Contains(Lower(Join(xs, ",")), NoneWord)
    ensures ListedIn(Strip(Join(xs, ","))) == xs
  {
    JoinedStripped(xs);
    JoinedSplit(xs);
  }

  /** Stripped names joined by commas need no stripping. */
  lemma JoinedStripped(xs: seq<string>)
    requires xs != []
    requires forall k :: 0 <= k < |xs| ==> Stripped(xs[k])
    ensures Strip(Join(xs, ",")) == Join(xs, ",")
  {
    JoinEnds(xs, ",");
    StripUnchanged(Join(xs, ","));
  }

  /** Stripped, comma-free names joined by commas split and clean back into
      the same names. */
  lemma JoinedSplit(xs: seq<string>)
    requires xs != []
    requires forall k :: 0 <= k < |xs| ==> Stripped(xs[k]) && ',' !in xs[k]
    ensures Cleaned(Split(Join(xs, ","), ',')) == xs
  {
    SplitJoin(xs, ',');
    CleanedKeeps(xs);
  }

  /** A text that starts with the hazard marker and has no explanation marker
      after it lists the comma-separated pieces of the rest. */
  lemma ListedAfterMarker(j: string)
    requires !Contains(Lower(j), ExplanationMarker)
    ensures Listed(HazardMarker + j) == ListedIn(Strip(j))
  {
    SpanAfterMarker(j);
    SliceAfterPrefix(HazardMarker, j);
  }

  lemma SliceAfterPrefix(m: string, j: string)
    ensures (m + j)[|m|..|m + j|] == j
  {
  }

  /** After a leading hazard marker, with no explanation marker in the rest,
      the hazard span is the whole rest of the text. */
  lemma SpanAfterMarker(j: string)
    requires !Contains(Lower(j), ExplanationMarker)
    ensures HazardBounds(Lower(HazardMarker + j)) == Some((|HazardMarker|, |HazardMarker + j|))
  {
    var m := HazardMarker;
    var l := LoweredAfterMarker(m, j);
    FoundAtStart(l, m);
    var b := HazardBounds(l);
    if b.value.1 != |l| {
      OccursInSuffix(m, Lower(j), ExplanationMarker, b.value.1);
    }
  }

  /** An occurrence past a prefix is an occurrence in the rest. */
  lemma OccursInSuffix(m: string, t: string, pat: string, e: int)
    requires |m| <= e && OccursAt(m + t, pat, e)
    ensures OccursAt(t, pat, e - |m|)
  {
    assert (m + t)[e..e + |pat|] == t[e - |m|..e - |m| + |pat|];
  }

  lemma LoweredAfterMarker(m: string, j: string) returns (l: string)
    requires m == HazardMarker
    ensures l == Lower(m + j) == m + Lower(j)
  {
    LowerHazardMarker(m);
    LowerAppend(m, j);
    l := Lower(m + j);
  }

  lemma FoundAtStart(l: string, pat: string)
    requires |pat| <= |l| && l[..|pat|] == pat
    ensures Find(l, pat) == 0
  {
    assert OccursAt(l, pat, 0);
  }

  lemma LowerHazardMarker(m: string)
    requires m == HazardMarker
    ensures Lower(m) == m
  {
    LowerIdentity(m);
  }

  /** An answer without any colon carries no marker, so every field keeps its
      fail-closed default and the hazards come from the diet's table scan. */
  lemma NoMarkersFailClosed(response: string, diet: string)
    requires ':' !in response
    ensures !Parse(response, diet).suitable
    ensures Parse(response, diet).riskLevel == High
    ensures Parse(response, diet).explanation == NoExplanation
    ensures Listed(response) == []
  {
    var l := Lower(response);
    assert forall i :: 0 <= i < |l| ==> l[i] != ':' by {
      forall i | 0 <= i < |l| ensures l[i] != ':' {
        assert l[i] == LowerChar(response[i]);
        assert response[i] != ':' by { assert response[i] in response; }
      }
    }
    AbsentChar(l, SuitableYes, 8);
    AbsentChar(l, SuitableYesTight, 8);
    AbsentChar(l, RiskLow, 10);
    AbsentChar(l, RiskMedium, 10);
    AbsentChar(l, HazardMarker, 21);
    AbsentChar(l, ExplanationMarker, 11);
  }

  /** The suitability test looks for the marker anywhere, so an answer that
      says "unsuitable: yes" counts as a yes. */
  lemma MarkerInsideWord(r: string, diet: string)
    requires Contains(Lower(r), "unsuitable: yes")
    ensures Parse(r, diet).suitable
  {
    UnsuitableHoldsMarker("unsuitable: yes");
    InfixTrans(SuitableYes, "unsuitable: yes", Lower(r));
  }

  lemma UnsuitableHoldsMarker(w: string)
    requires w == "unsuitable: yes"
    ensures IsInfix(SuitableYes, w)
  {
    assert OccursAt(w, SuitableYes, 2);
  }

  /** A present but empty explanation (an answer that is just "EXPLANATION:",
      in any letter case) is read as the empty text, not as the "Analysis
      incomplete" sentinel. */
  lemma EmptyExplanation(r: string)
    requires Lower(r) == ExplanationMarker
    ensures ExplanationOf(r) == []
  {
    assert OccursAt(Lower(r), ExplanationMarker, 0);
    assert Find(Lower(r), ExplanationMarker) == 0;
    assert r[|ExplanationMarker|..] == [];
  }

  /** The explanation with the sentinel also standing in for an empty one. */
  function ExplanationIntended(response: string): (r: string)
    ensures r != []
    ensures Contains(Lower(response), ExplanationMarker) && ExplanationOf(response) != [] ==> r == ExplanationOf(response)
    ensures !Contains(Lower(response), ExplanationMarker) ==> r == NoExplanation
  {
    var e := ExplanationOf(response);
    if e == [] then NoExplanation else e
  }

  // ------------------------------------------------------------- the LLM call

  /** The verdict returned when the analysis chain raises. */
  function ErrorVerdict(error: string): Verdict {
    Verdict(false, High, "LLM error: " + error, ["Analysis error"])
  }

  /** `analyze_with_llm`: the retrieval runs outside the `try`, so its
      exception escapes; an exception of the chain gives the fail-closed error
      verdict; otherwise the parsed answer. */
  function LlmVerdict(agent: RagAgent, ingredients: string, diet: string): (v: Raises<Verdict>)
    ensures v.Raised? <==> DietInfo(agent, diet).Raised?
    ensures v.Raised? ==> v.error == DietInfo(agent, diet).error
    ensures v.Returns? ==> v.value.hazardousIngredients != [] && v.value.riskLevel != UnknownRisk
    ensures DietInfo(agent, diet).Returns? && agent.llm(ingredients, diet, DietInfo(agent, diet).value).LlmFailed? ==>
      v.Returns? && !v.value.suitable && v.value.riskLevel == High && v.value.hazardousIngredients == ["Analysis error"]
    ensures DietInfo(agent, diet).Returns? && agent.llm(ingredients, diet, DietInfo(agent, diet).value).Reply? ==>
      v == Returns(Parse(agent.llm(ingredients, diet, DietInfo(agent, diet).value).text, diet))
  {
    match DietInfo(agent, diet)
    case Raised(e) => Raised(e)
    case Returns(info) =>
      match agent.llm(ingredients, diet, info)
      case Reply(text) => Returns(Parse(text, diet))
      case LlmFailed(error) => Returns(ErrorVerdict(error))
  }

  // ------------------------------------------------- analyses and risk score

  /** The analysis of one preference. */
  function VerdictOf(agent: RagAgent, ingredients: string): string -> Raises<Verdict> {
    p => LlmVerdict(agent, ingredients, p)
  }

  /** `analyze_ingredients` as a value: the preferences are analysed in order
      by `f` and the first exception escapes; otherwise one entry per distinct
      preference. */
  function Analyse<V>(f: string -> Raises<V>, preferences: seq<string>): Raises<map<string, V>> {
    if preferences == [] then Returns(map[])
    else
      match f(preferences[0])
      case Raised(e) => Raised(e)
      case Returns(v) =>
        match Analyse(f, preferences[1..])
        case Raised(e) => Raised(e)
        case Returns(m) => Returns(m[preferences[0] := v])
  }

  function Analysis(agent: RagAgent, ingredients: string, preferences: seq<string>): Raises<map<string, Verdict>> {
    Analyse(VerdictOf(agent, ingredients), preferences)
  }

  /** Every preference was analysed without an exception. */
  predicate AllReturn<V>(f: string -> Raises<V>, preferences: seq<string>) {
    forall k :: 0 <= k < |preferences| ==> f(preferences[k]).Returns?
  }

  /** The map of a run without exceptions. */
  function ReturnedMap<V>(f: string -> Raises<V>, preferences: seq<string>): map<string, V>
    requires AllReturn(f, preferences)
  {
    map p | p in preferences :: f(p).value
  }

  /** Without an exception the result has exactly the preferences as keys,
      each with its own value. */
  lemma {:induction false} AnalyseAllReturn<V>(f: string -> Raises<V>, preferences: seq<string>)
    requires AllReturn(f, preferences)
    ensures Analyse(f, preferences) == Returns(ReturnedMap(f, preferences))
  {
    if preferences != [] {
      var rest := preferences[1..];
      assert forall k :: 0 <= k < |rest| ==> rest[k] == preferences[k + 1];
      AnalyseAllReturn(f, rest);
      assert preferences == [preferences[0]] + rest;
      assert ReturnedMap(f, rest)[preferences[0] := f(preferences[0]).value] == ReturnedMap(f, preferences);
    }
  }

  /** The exception of the first preference whose analysis raises is the
      exception of the whole analysis. */
  lemma {:induction false} AnalyseFirstRaise<V>(f: string -> Raises<V>, preferences: seq<string>, i: nat)
    requires i < |preferences|
    requires AllReturn(f, preferences[..i])
    requires f(preferences[i]).Raised?
    ensures Analyse(f, preferences) == Raised(f(preferences[i]).error)
  {
    if i > 0 {
      var rest := preferences[1..];
      assert preferences[..i][0] == preferences[0];
      var pre, pre1 := rest[..i - 1], preferences[..i];
      forall k | 0 <= k < |pre| ensures f(pre[k]).Returns? {
        assert pre[k] == pre1[k + 1];
      }
      assert rest[i - 1] == preferences[i];
      AnalyseFirstRaise(f, rest, i - 1);
    }
  }

  /** A run that returns has one entry for each distinct preference and no
      other. */
  lemma {:induction false} AnalyseKeys<V>(f: string -> Raises<V>, preferences: seq<string>)
    ensures Analyse(f, preferences).Returns? ==>
      Analyse(f, preferences).value.Keys == set p | p in preferences
  {
    if preferences != [] {
      var rest := preferences[1..];
      AnalyseKeys(f, rest);
      assert preferences == [preferences[0]] + rest;
      assert (set p | p in preferences) == (set p | p in rest) + {preferences[0]};
    }
  }

  /** `analyze_ingredients`: the dictionary filled preference by preference;
      a repeated preference overwrites its own entry with the same verdict. */
  method AnalyzeIngredients(agent: RagAgent, ingredients: string, preferences: seq<string>)
    returns (r: Raises<map<string, Verdict>>)
    ensures r == Analysis(agent, ingredients, preferences)
  {
    r := AnalyseInOrder(VerdictOf(agent, ingredients), preferences);
  }

  /** The loop of `analyze_ingredients`, for the analysis `f` of one
      preference: an exception leaves the loop at once. */
  method AnalyseInOrder<V>(f: string -> Raises<V>, preferences: seq<string>) returns (r: Raises<map<string, V>>)
    ensures r == Analyse(f, preferences)
  {
    var results := map[];
    for i := 0 to |preferences|
      invariant AllReturn(f, preferences[..i])
      invariant results == ReturnedMap(f, preferences[..i])
    {
      var v := f(preferences[i]);
      if v.Raised? {
        AnalyseFirstRaise(f, preferences, i);
        return Raised(v.error);
      }
      assert preferences[..i + 1] == preferences[..i] + [preferences[i]];
      results := results[preferences[i] := v.value];
    }
    assert preferences[..|preferences|] == preferences;
    AnalyseAllReturn(f, preferences);
    r := Returns(results);
  }

  /** The entries judged suitable. */
  function SafeKeys(results: map<string, Verdict>): set<string> {
    set k | k in results && results[k].suitable
  }

  /** `calculate_risk_score`: the percentage of suitable verdicts, 0 when
      nothing was analysed; 100 exactly when every verdict is suitable and 0
      exactly when none is. */
  function RiskScore(results: map<string, Verdict>): (r: real)
    ensures 0.0 <= r <= 100.0
    ensures |results| == 0 ==> r == 0.0
    ensures r == 0.0 <==> forall k :: k in results ==> !results[k].suitable
    ensures |results| > 0 ==> (r == 100.0 <==> forall k :: k in results ==> results[k].suitable)
  {
    var total := |results|;
    if total == 0 then 0.0
    else
      var safe := SafeKeys(results);
      SafeKeysFacts(results);
      (|safe| as real / total as real) * 100.0
  }

  lemma SafeKeysFacts(results: map<string, Verdict>)
    ensures |SafeKeys(results)| <= |results|
    ensures |SafeKeys(results)| == 0 <==> forall k :: k in results ==> !results[k].suitable
    ensures |SafeKeys(results)| == |results| <==> forall k :: k in results ==> results[k].suitable
  {
    var safe := SafeKeys(results);
    assert safe <= results.Keys;
    SubsetSize(safe, results.Keys);
    forall k | k in results && results[k].suitable ensures k in safe {
    }
    if forall k :: k in results ==> results[k].suitable {
      assert safe == results.Keys;
    }
  }

  /** A subset is no larger than its superset, and equally large only when equal. */
  lemma {:induction false} SubsetSize<T>(a: set<T>, b: set<T>)
    requires a <= b
    ensures |a| <= |b|
    ensures |a| == |b| ==> a == b
  {
    if a != b {
      var x :| x in b && x !in a;
      assert a <= b - {x};
      SubsetCardinality(a, b - {x});
    } else {
      SubsetCardinality(a, b);
    }
  }

  lemma {:induction false} SubsetCardinality<T>(a: set<T>, b: set<T>)
    requires a <= b
    ensures |a| <= |b|
    decreases |b|
  {
    if a != {} {
      var x :| x in a;
      SubsetCardinality(a - {x}, b - {x});
    }
  }

  /** With the retrieval working and the LLM down, every preference gets the
      error verdict, so the product scores 0. */
  lemma LlmDownScoresZero(agent: RagAgent, ingredients: string, preferences: seq<string>)
    requires forall p :: p in preferences ==> DietInfo(agent, p).Returns?
    requires forall p :: p in preferences ==> agent.llm(ingredients, p, DietInfo(agent, p).value).LlmFailed?
    ensures Analysis(agent, ingredients, preferences).Returns?
    ensures RiskScore(Analysis(agent, ingredients, preferences).value) == 0.0
  {
    var f := VerdictOf(agent, ingredients);
    assert forall k :: 0 <= k < |preferences| ==> preferences[k] in preferences;
    AnalyseAllReturn(f, preferences);
  }

  // ------------------------------------------------------------- baby ages

  /** The age brackets in months, inclusive and in dictionary order. */
  const AgeBrackets: seq<(int, int, string)> := [(0, 6, "baby_0_6"), (6, 8, "baby_6_8"), (8, 12, "baby_8_12")]

  /** The diet key of the first bracket that contains `age`. */
  function BracketOf(brackets: seq<(int, int, string)>, age: int): (r: Option<string>)
    ensures r.None? <==> forall i :: 0 <= i < |brackets| ==> !(brackets[i].0 <= age <= brackets[i].1)
  {
    if brackets == [] then None
    else if brackets[0].0 <= age <= brackets[0].1 then Some(brackets[0].2)
    else
      assert forall i :: 1 <= i < |brackets| ==> brackets[i] == brackets[1..][i - 1];
      BracketOf(brackets[1..], age)
  }

  /** The bracket table as a case split: the first match wins, so 6 goes to
      the youngest bracket and 8 to the middle one. */
  lemma BabyBrackets(age: int)
    ensures BracketOf(AgeBrackets, age) ==
      if 0 <= age <= 6 then Some("baby_0_6")
      else if 7 <= age <= 8 then Some("baby_6_8")
      else if 9 <= age <= 12 then Some("baby_8_12")
      else None
  {
    var b := AgeBrackets;
    assert b[0] == (0, 6, "baby_0_6");
    assert b[1..][0] == (6, 8, "baby_6_8");
    assert b[1..][1..][0] == (8, 12, "baby_8_12");
    assert b[1..][1..][1..] == [];
    assert BracketOf(b[1..][1..][1..], age) == None;
    assert BracketOf(b[1..][1..], age) == if 8 <= age <= 12 then Some("baby_8_12") else None;
    assert BracketOf(b[1..], age) == if 6 <= age <= 8 then Some("baby_6_8") else BracketOf(b[1..][1..], age);
  }

  /** The verdict for an age no bracket covers. */
  const GeneralVerdict := Verdict(true, Low, "General food safety guidelines apply", ["None"])

  /** `analyze_for_baby_age`, as a value. */
  function BabyVerdict(agent: RagAgent, ingredients: string, age: int): Raises<Verdict> {
    match BracketOf(AgeBrackets, age)
    case Some(key) => LlmVerdict(agent, ingredients, key)
    case None => Returns(GeneralVerdict)
  }

  /** `analyze_for_baby_age`: the first bracket containing the age picks the
      diet key the LLM analyses; outside every bracket the general verdict,
      without any call. */
  method AnalyzeForBabyAge(agent: RagAgent, ingredients: string, age: int) returns (v: Raises<Verdict>)
    ensures v == BabyVerdict(agent, ingredients, age)
    ensures 0 <= age <= 12 ==>
      BracketOf(AgeBrackets, age).Some? && v == LlmVerdict(agent, ingredients, BracketOf(AgeBrackets, age).value)
    ensures !(0 <= age <= 12) ==> v == Returns(GeneralVerdict)
  {
    BabyBrackets(age);
    var i := 0;
    while i < |AgeBrackets|
      invariant 0 <= i <= |AgeBrackets|
      invariant BracketOf(AgeBrackets, age) == BracketOf(AgeBrackets[i..], age)
    {
      var (low, high, key) := AgeBrackets[i];
      if low <= age <= high {
        return LlmVerdict(agent, ingredients, key);
      }
      i := i + 1;
    }
    return Returns(GeneralVerdict);
  }
}
