/** The chatbot's tool table: eight named handlers that look things up in
    fixed tables or hand the work to the memory agent or the RAG agent when
    one is present. */
module Tools {
  import opened Common
  import opened Text
  import opened Memory
  import opened Rag

  /** What `get_user_profile` hands back: the memory agent's stored profile,
      or the fixed default record when there is no memory agent. */
  datatype UserInfo = Stored(profile: Profile) | DefaultProfile

  /** `user_profile.get('segment', ...)`. */
  function InfoSegment(u: UserInfo): string {
    match u
    case Stored(p) => p.segment
    case DefaultProfile => "general_health"
  }

  /** `user_profile.get('age_group', ...)`; both shapes carry the key. */
  function InfoAgeGroup(u: UserInfo): string {
    match u
    case Stored(p) => p.ageGroup
    case DefaultProfile => "adult"
  }

  /** `user_profile.get('medical_conditions', [])`. */
  function InfoConditions(u: UserInfo): seq<string> {
    match u
    case Stored(p) => p.medicalConditions
    case DefaultProfile => []
  }

  /** `user_profile.get('allergies', [])`. */
  function InfoAllergies(u: UserInfo): seq<string> {
    match u
    case Stored(p) => p.allergies
    case DefaultProfile => []
  }

  /** The truth value of `user_profile.get('has_children')`. */
  function InfoHasChildren(u: UserInfo): bool {
    match u
    case Stored(p) => p.hasChildren
    case DefaultProfile => false
  }

  /** The diets the ingredient analysis is asked about: the conditions, then
      the allergies. */
  function Preferences(u: UserInfo): (r: seq<string>)
    ensures |r| == |InfoConditions(u)| + |InfoAllergies(u)|
    ensures forall x :: x in r <==> x in InfoConditions(u) || x in InfoAllergies(u)
  {
    InfoConditions(u) + InfoAllergies(u)
  }

  /** What a handler returns. */
  datatype ToolResult =
    | UserProfileResult(info: UserInfo)
    | SimilarCount(similarUsersCount: nat, message: string)
    | AnalysisResult(results: map<string, Verdict>)
    | Message(message: string)
    | ImageUnavailable(success: bool, message: string, generalAdvice: string)
    | InsightsResult(insights: Insights)
    | Plain(text: string)
    | BabySafety(verdict: Verdict)

  /** The keyword arguments a caller of `execute_tool` passes, one field per
      parameter name some handler takes. */
  datatype ToolArgs = ToolArgs(
    userId: UserId,
    currentProblem: string,
    ingredients: string,
    userProfile: UserInfo,
    imagePath: string,
    productType: string,
    userSegment: string,
    ageGroup: string,
    babyAgeMonths: int)

  /** The handlers of the tool table. */
  datatype Tool =
    | UserProfileTool | SimilarUsersTool | IngredientsTool | ImageTool
    | CommunityTool | NutritionRiskTool | AgeAdviceTool | BabySafetyTool

  /** The name `execute_tool` knows each handler by. */
  function ToolName(t: Tool): string {
    match t
    case UserProfileTool => "get_user_profile"
    case SimilarUsersTool => "find_similar_users"
    case IngredientsTool => "analyze_ingredients"
    case ImageTool => "extract_ingredients_from_image"
    case CommunityTool => "get_community_insights"
    case NutritionRiskTool => "calculate_nutrition_risk"
    case AgeAdviceTool => "get_age_specific_advice"
    case BabySafetyTool => "check_baby_safety"
  }

  /** No two handlers share a name (their names even differ in length). */
  lemma ToolNamesDistinct(t: Tool, u: Tool)
    requires ToolName(t) == ToolName(u)
    ensures t == u
  {
    assert |ToolName(t)| == |ToolName(u)|;
  }

  /** The lookup in `tool_methods`: the handler called `name`, if any. */
  function ToolNamed(name: string): (t: Option<Tool>)
    ensures t.Some? ==> ToolName(t.value) == name
    ensures t.None? <==> forall u: Tool :: ToolName(u) != name
  {
    if name == "get_user_profile" then Some(UserProfileTool)
    else if name == "find_similar_users" then Some(SimilarUsersTool)
    else if name == "analyze_ingredients" then Some(IngredientsTool)
    else if name == "extract_ingredients_from_image" then Some(ImageTool)
    else if name == "get_community_insights" then Some(CommunityTool)
    else if name == "calculate_nutrition_risk" then Some(NutritionRiskTool)
    else if name == "get_age_specific_advice" then Some(AgeAdviceTool)
    else if name == "check_baby_safety" then Some(BabySafetyTool)
    else None
  }

  const NoAnalysis := "No specific analysis available"
  const NoMemory := "Memory agent not available"
  const NoCommunity := "Community insights not available in current setup"
  const NoRagBaby := "Full baby safety analysis requires RAG agent"
  /** The text of `find_similar_users`. */
  function FoundUsers(n: nat): string {
    "Found " + NatToString(n) + " users with similar profiles"
  }

  /** The text `execute_tool` returns for an unknown name. */
  function NotFound(name: string): string {
    "Tool " + name + " not found"
  }

  const NoVision := "Image analysis requires full vision agent setup"
  const CheckLabel := "Please check the product label for ingredients"

  /** The age-advice table, in dictionary order. */
  const AgeAdviceTable: seq<(string, string)> := [
    ("baby_0_6_months", "Only breast milk or formula recommended"),
    ("baby_6_8_months", "Pureed foods, no salt/sugar, avoid egg whites and honey"),
    ("baby_8_12_months", "Can introduce egg yolks, yogurt, soft fruits"),
    ("child_1_5_years", "Limit processed foods, watch for choking hazards"),
    ("50_plus", "Focus on heart-healthy, low-sodium, high-fiber options"),
    ("general", "Balanced diet with variety of fruits, vegetables, and whole grains")]

  const GeneralAdvice := "Balanced diet with variety of fruits, vegetables, and whole grains"

  /** The default profile of a tool set without a memory agent. */
  lemma DefaultProfileFields()
    ensures InfoSegment(DefaultProfile) == "general_health"
    ensures InfoAgeGroup(DefaultProfile) == "adult"
    ensures InfoConditions(DefaultProfile) == [] && InfoAllergies(DefaultProfile) == []
    ensures !InfoHasChildren(DefaultProfile)
    ensures Preferences(DefaultProfile) == []
  {
  }

  /** `get_age_specific_advice(age_group, product_type)`: the table entry of
      the age group, else the general advice; the product type is never read. */
  function AgeAdvice(ageGroup: string, productType: string): (r: string)
    ensures Lookup(AgeAdviceTable, ageGroup).Some? ==> r == Lookup(AgeAdviceTable, ageGroup).value
    ensures Lookup(AgeAdviceTable, ageGroup).None? ==> r == GeneralAdvice
    ensures exists i :: 0 <= i < |AgeAdviceTable| && r == AgeAdviceTable[i].1
  {
    match Lookup(AgeAdviceTable, ageGroup)
    case Some(a) => a
    case None => assert AgeAdviceTable[5].1 == GeneralAdvice; GeneralAdvice
  }

  /** The memory agent's age group "adult" has no entry of its own and gets
      the general advice. */
  lemma AdultGetsGeneral(g: string, productType: string)
    requires g == "adult"
    ensures AgeAdvice(g, productType) == GeneralAdvice
  {
    forall i | 0 <= i < |AgeAdviceTable| ensures AgeAdviceTable[i].0 != g {
      assert AgeAdviceTable[i].0[0] != 'a';
    }
  }

  /** `extract_ingredients_from_image(image_path)`: never available here. */
  function ExtractIngredientsFromImage(imagePath: string): (r: ToolResult)
    ensures r.ImageUnavailable? && !r.success
  {
    ImageUnavailable(false, NoVision, CheckLabel)
  }

  /** Turns the analysis of the RAG agent into a handler result. */
  function AsAnalysis(a: Raises<map<string, Verdict>>): (r: Raises<ToolResult>)
    ensures r.Raised? <==> a.Raised?
    ensures a.Raised? ==> r.error == a.error
    ensures a.Returns? ==> r == Returns(AnalysisResult(a.value))
  {
    match a
    case Returns(m) => Returns(AnalysisResult(m))
    case Raised(e) => Raised(e)
  }

  /** `get_similar_users` returns at most `max_users` records. */
  lemma SimilarUsersAtMost(profiles: map<UserId, Profile>, order: seq<UserId>, uid: UserId, maxUsers: nat)
    requires forall i :: 0 <= i < |order| ==> order[i] in profiles
    ensures |SimilarUsers(profiles, order, uid, maxUsers)| <= maxUsers
  {
    if uid in profiles {
      SimilarUsersOrder(profiles, order, uid, maxUsers);
    }
  }

  class ChatbotTools {
    /** The RAG agent, if the tools were given one. */
    const rag: Option<RagAgent>
    /** The memory agent, if the tools were given one. */
    const memory: MemoryAgent?

    constructor (rag: Option<RagAgent>, memory: MemoryAgent?)
      ensures this.rag == rag && this.memory == memory
    {
      this.rag := rag;
      this.memory := memory;
    }

    /** `analyze_ingredients` hands the work to the RAG agent exactly when
        there is one, the ingredients are non-empty and the profile names at
        least one condition or allergy. */
    predicate Delegates(ingredients: string, info: UserInfo) {
      rag.Some? && ingredients != [] && Preferences(info) != []
    }

    /** `analyze_ingredients(ingredients, user_profile)`: when delegated, the
        RAG agent's analysis, whose exception escapes and whose map has one
        entry per condition or allergy; otherwise the fixed message. */
    function AnalyzeIngredients(ingredients: string, info: UserInfo): (r: Raises<ToolResult>)
      ensures !Delegates(ingredients, info) ==> r == Returns(Message(NoAnalysis))
      ensures Delegates(ingredients, info) ==>
        (r.Raised? <==> Analysis(rag.value, ingredients, Preferences(info)).Raised?)
      ensures Delegates(ingredients, info) ==> r == AsAnalysis(Analysis(rag.value, ingredients, Preferences(info)))
      ensures Delegates(ingredients, info) && r.Returns? ==>
        r.value.AnalysisResult? && r.value.results.Keys == set p | p in Preferences(info)
      ensures r.Returns? && r.value.AnalysisResult? ==>
        Delegates(ingredients, info)
        && r.value.results.Keys == set p | p in Preferences(info)
        && r == AsAnalysis(Analysis(rag.value, ingredients, Preferences(info)))
    {
      if rag.Some? && ingredients != [] && Preferences(info) != [] then
        AnalyseKeys(VerdictOf(rag.value, ingredients), Preferences(info));
        AsAnalysis(Analysis(rag.value, ingredients, Preferences(info)))
      else Returns(Message(NoAnalysis))
    }

    /** `calculate_nutrition_risk` is `analyze_ingredients` under another name. */
    function CalculateNutritionRisk(ingredients: string, info: UserInfo): (r: Raises<ToolResult>)
      ensures r == AnalyzeIngredients(ingredients, info)
    {
      AnalyzeIngredients(ingredients, info)
    }

    /** `check_baby_safety(ingredients, baby_age_months)`: the RAG agent's
        verdict for the age bracket; without a RAG agent a suitable verdict of
        unknown risk with nothing hazardous. */
    function CheckBabySafety(ingredients: string, ageMonths: int): (r: Raises<ToolResult>)
      ensures rag.None? ==> r == Returns(BabySafety(Verdict(true, UnknownRisk, NoRagBaby, [])))
      ensures rag.Some? ==> (r.Raised? <==> BabyVerdict(rag.value, ingredients, ageMonths).Raised?)
      ensures rag.Some? && r.Returns? ==>
        r.value == BabySafety(BabyVerdict(rag.value, ingredients, ageMonths).value)
        && r.value.verdict.riskLevel != UnknownRisk && r.value.verdict.hazardousIngredients != []
      ensures rag.Some? && !(0 <= ageMonths <= 12) ==> r == Returns(BabySafety(GeneralVerdict))
    {
      if rag.None? then Returns(BabySafety(Verdict(true, UnknownRisk, NoRagBaby, [])))
      else
        BabyBrackets(ageMonths);
        match BabyVerdict(rag.value, ingredients, ageMonths)
        case Returns(v) => Returns(BabySafety(v))
        case Raised(e) => Raised(e)
    }

    /** `find_similar_users(user_id, current_problem)`: how many users the
        memory agent finds for a cut of 3; the problem is never read. */
    function FindSimilarUsers(uid: UserId, currentProblem: string): (r: ToolResult)
      reads memory
      requires memory != null ==> memory.Valid()
      ensures r.SimilarCount? && r.similarUsersCount <= 3
      ensures memory == null ==> r == SimilarCount(0, NoMemory)
      ensures memory != null ==>
        var n := |SimilarUsers(memory.profiles, memory.order, uid, 3)|;
        r == SimilarCount(n, FoundUsers(n))
    {
      if memory == null then SimilarCount(0, NoMemory)
      else
        var n := |SimilarUsers(memory.profiles, memory.order, uid, 3)|;
        SimilarUsersAtMost(memory.profiles, memory.order, uid, 3);
        SimilarCount(n, FoundUsers(n))
    }

    /** `get_community_insights(product_type, user_segment)`: the memory
        agent is asked with the arguments swapped, so the segment is the
        second argument and the product type is passed as the unread problem
        type. */
    function GetCommunityInsights(productType: string, userSegment: string): (r: Raises<ToolResult>)
      reads memory
      requires memory != null ==> memory.Valid()
      ensures memory == null ==> r == Returns(Plain(NoCommunity))
      ensures memory != null ==>
        (r.Raised? <==> CommunityInsights(memory.profiles, memory.order, userSegment).Raised?)
        && (r.Returns? ==> r.value == InsightsResult(CommunityInsights(memory.profiles, memory.order, userSegment).value))
    {
      if memory == null then Returns(Plain(NoCommunity))
      else
        match CommunityInsights(memory.profiles, memory.order, userSegment)
        case Returns(i) => Returns(InsightsResult(i))
        case Raised(e) => Raised(e)
    }

    /** `get_user_profile(user_id)`: the memory agent's record, created or
        refreshed on this access, or the default record. */
    method GetUserProfile(uid: UserId, now: string) returns (info: UserInfo)
      requires memory != null ==> memory.Valid()
      modifies memory
      ensures memory == null ==> info == DefaultProfile
      ensures memory != null ==>
        && memory.Valid()
        && info == Stored(Accessed(old(memory.profiles), uid, now))
        && memory.profiles == old(memory.profiles)[uid := info.profile]
        && memory.userSegments == old(memory.userSegments)[uid := info.profile.segment]
        && memory.order == if uid in old(memory.profiles) then old(memory.order) else old(memory.order) + [uid]
    {
      if memory == null {
        info := DefaultProfile;
      } else {
        var p := memory.GetOrCreateUserProfile(uid, now);
        info := Stored(p);
      }
    }

    /** The handlers that only read: each called with the arguments it takes. */
    function Run(t: Tool, args: ToolArgs): Raises<ToolResult>
      reads memory
      requires t != UserProfileTool
      requires memory != null ==> memory.Valid()
    {
      match t
      case SimilarUsersTool => Returns(FindSimilarUsers(args.userId, args.currentProblem))
      case IngredientsTool => AnalyzeIngredients(args.ingredients, args.userProfile)
      case ImageTool => Returns(ExtractIngredientsFromImage(args.imagePath))
      case CommunityTool => GetCommunityInsights(args.productType, args.userSegment)
      case NutritionRiskTool => CalculateNutritionRisk(args.ingredients, args.userProfile)
      case AgeAdviceTool => Returns(Plain(AgeAdvice(args.ageGroup, args.productType)))
      case BabySafetyTool => CheckBabySafety(args.ingredients, args.babyAgeMonths)
    }

    /** `execute_tool(tool_name, **kwargs)`: the handler of a known name, with
        the arguments it takes; any other name gets the not-found text. Only
        `get_user_profile` changes the memory agent. */
    method ExecuteTool(name: string, args: ToolArgs, now: string) returns (r: Raises<ToolResult>)
      requires memory != null ==> memory.Valid()
      modifies memory
      ensures memory != null ==> memory.Valid()
      ensures ToolNamed(name).None? ==> r == Returns(Plain(NotFound(name)))
      ensures ToolNamed(name) == Some(UserProfileTool) ==> r.Returns? && r.value.UserProfileResult?
      ensures ToolNamed(name) == Some(UserProfileTool) && memory == null ==> r == Returns(UserProfileResult(DefaultProfile))
      ensures ToolNamed(name) == Some(UserProfileTool) && memory != null ==>
        && r == Returns(UserProfileResult(Stored(Accessed(old(memory.profiles), args.userId, now))))
        && memory.profiles == old(memory.profiles)[args.userId := Accessed(old(memory.profiles), args.userId, now)]
        && memory.userSegments == old(memory.userSegments)[args.userId := Accessed(old(memory.profiles), args.userId, now).segment]
        && memory.order == if args.userId in old(memory.profiles) then old(memory.order) else old(memory.order) + [args.userId]
      ensures ToolNamed(name) != Some(UserProfileTool) && memory != null ==> unchanged(memory)
      ensures ToolNamed(name).Some? && ToolNamed(name) != Some(UserProfileTool) ==> r == Run(ToolNamed(name).value, args)
    {
      match ToolNamed(name)
      case None =>
        r := Returns(Plain(NotFound(name)));
      case Some(UserProfileTool) =>
        var info := GetUserProfile(args.userId, now);
        r := Returns(UserProfileResult(info));
      case Some(t) =>
        r := Run(t, args);
    }
  }
}
