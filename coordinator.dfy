// The decision logic of ProductAnalysisCoordinator.full_analysis: the brand
// the vision step read and the product the search step found are inputs; the
// verdicts come from the ingredient analysis of the Rag module.

module Coordinator {
  import opened Common
  import opened Text
  import opened Rag

  /** What the product search returns: a record with an `error` key, or one
      whose name and ingredient list may each be absent. */
  datatype ProductData = ProductData(hasError: bool, productName: Option<string>, ingredients: Option<string>)

  /** The dictionary `full_analysis` returns: an error, or the report. */
  datatype Outcome =
    | Failure(error: string)
    | Report(brand: string, productName: Option<string>, ingredients: string,
             riskAnalysis: map<string, Verdict>, riskScore: real, overallSafety: string)

  const BrandNotDetected := "Marka tespit edilemedi"
  const ProductNotFound := "Ürün bulunamadı"

  const Safe := "GÜVENLİ"
  const Moderate := "ORTA"
  const Risky := "RİSKLİ"

  /** The markers of a failed brand detection: the vision step answers
      `UNKNOWN` when it sees no brand and a text starting with `Hata` when
      its call fails. */
  predicate BrandFailed(brand: string) {
    Contains(brand, "UNKNOWN") || Contains(brand, "Hata")
  }

  /** The `overall_safety` label: both thresholds are strict. */
  function SafetyLabel(score: real): (tag: string)
    ensures tag == Safe <==> score > 80.0
    ensures tag == Moderate <==> 50.0 < score <= 80.0
    ensures tag == Risky <==> score <= 50.0
  {
    if score > 80.0 then Safe else if score > 50.0 then Moderate else Risky
  }

  /** The labels from safest down. */
  function Rank(tag: string): nat {
    if tag == Safe then 2 else if tag == Moderate then 1 else 0
  }

  /** A higher score never gets a less safe label. */
  lemma SafetyMonotone(s: real, t: real)
    requires s <= t
    ensures Rank(SafetyLabel(s)) <= Rank(SafetyLabel(t))
  {
    if SafetyLabel(s) == Safe {
      assert SafetyLabel(t) == Safe;
    }
  }

  /** The boundary scores fall on the less safe side. */
  lemma SafetyBoundaries()
    ensures SafetyLabel(80.0) == Moderate && SafetyLabel(50.0) == Risky
    ensures SafetyLabel(100.0) == Safe && SafetyLabel(0.0) == Risky
  {
  }

  /** `full_analysis(image_path, user_preferences)` for the detected `brand`
      and the product `search` finds for a brand. The checks come first:
      a failed detection ends the analysis before any search, a search
      error before any analysis; otherwise the report of the analysed
      ingredients (an empty list when the product names none), and an
      exception of the analysis escapes. */
  function FullAnalysis(brand: string, search: string -> ProductData, agent: RagAgent, preferences: seq<string>)
    : (r: Raises<Outcome>)
    ensures BrandFailed(brand) ==> r == Returns(Failure(BrandNotDetected))
    ensures !BrandFailed(brand) && search(brand).hasError ==> r == Returns(Failure(ProductNotFound))
    ensures !BrandFailed(brand) && !search(brand).hasError ==>
      var ingredients := if search(brand).ingredients.Some? then search(brand).ingredients.value else "";
      var analysis := Analysis(agent, ingredients, preferences);
      && (r.Raised? <==> analysis.Raised?)
      && (r.Raised? ==> r.error == analysis.error)
      && (r.Returns? ==> r.value == Report(brand, search(brand).productName, ingredients, analysis.value,
                                           RiskScore(analysis.value), SafetyLabel(RiskScore(analysis.value))))
  {
    if BrandFailed(brand) then Returns(Failure(BrandNotDetected))
    else
      var product := search(brand);
      if product.hasError then Returns(Failure(ProductNotFound))
      else
        var ingredients := if product.ingredients.Some? then product.ingredients.value else "";
        match Analysis(agent, ingredients, preferences)
        case Raised(e) => Raised(e)
        case Returns(analysis) =>
          var score := RiskScore(analysis);
          Returns(Report(brand, product.productName, ingredients, analysis, score, SafetyLabel(score)))
  }

  /** A failed detection does not depend on the search or the analysis at
      all: no search happens. */
  lemma NoSearchAfterFailedBrand(brand: string, s1: string -> ProductData, s2: string -> ProductData,
                                 a1: RagAgent, a2: RagAgent, p1: seq<string>, p2: seq<string>)
    requires BrandFailed(brand)
    ensures FullAnalysis(brand, s1, a1, p1) == FullAnalysis(brand, s2, a2, p2)
  {
  }

  /** The failure text of the vision call is a failed detection. */
  lemma VisionErrorIsFailure(detail: string)
    ensures BrandFailed("Hata: " + detail)
  {
    FoundAtStart("Hata: " + detail, "Hata");
  }

  /** A search error needs no analysis: the result does not depend on the
      agent or the preferences. */
  lemma NoAnalysisAfterSearchError(brand: string, search: string -> ProductData,
                                   a1: RagAgent, a2: RagAgent, p1: seq<string>, p2: seq<string>)
    requires !BrandFailed(brand) && search(brand).hasError
    ensures FullAnalysis(brand, search, a1, p1) == FullAnalysis(brand, search, a2, p2)
  {
  }

  /** A product every preference finds suitable is labelled safe, and one
      none finds suitable (with at least one preference) risky. */
  lemma ReportLabels(brand: string, search: string -> ProductData, agent: RagAgent, preferences: seq<string>)
    requires FullAnalysis(brand, search, agent, preferences).Returns?
    requires FullAnalysis(brand, search, agent, preferences).value.Report?
    ensures var rep := FullAnalysis(brand, search, agent, preferences).value;
      && (rep.riskAnalysis != map[] && (forall k :: k in rep.riskAnalysis ==> rep.riskAnalysis[k].suitable) ==> rep.overallSafety == Safe)
      && ((forall k :: k in rep.riskAnalysis ==> !rep.riskAnalysis[k].suitable) ==> rep.overallSafety == Risky)
  {
    var rep := FullAnalysis(brand, search, agent, preferences).value;
    if rep.riskAnalysis != map[] {
      assert |rep.riskAnalysis| > 0 by {
        var k :| k in rep.riskAnalysis;
        assert k in rep.riskAnalysis.Keys;
      }
    }
  }

  /** With the retrieval working and the model down, a found product is
      labelled risky. */
  lemma LlmDownIsRisky(brand: string, search: string -> ProductData, agent: RagAgent, preferences: seq<string>)
    requires !BrandFailed(brand) && !search(brand).hasError
    requires forall p :: p in preferences ==> DietInfo(agent, p).Returns?
    requires var ingredients := if search(brand).ingredients.Some? then search(brand).ingredients.value else "";
      forall p :: p in preferences ==> agent.llm(ingredients, p, DietInfo(agent, p).value).LlmFailed?
    ensures FullAnalysis(brand, search, agent, preferences).Returns?
    ensures FullAnalysis(brand, search, agent, preferences).value.overallSafety == Risky
  {
    var ingredients := if search(brand).ingredients.Some? then search(brand).ingredients.value else "";
    LlmDownScoresZero(agent, ingredients, preferences);
  }
}
