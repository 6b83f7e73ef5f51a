/** The memory agent: a table of user profiles keyed by user id, each placed in
    one segment of a fixed catalogue by the condition tags it carries, with peer
    ranking by a weighted Jaccard similarity and per-segment community
    statistics. */
module Memory {
  import opened Common
  import opened Text
  import opened Ranking

  type UserId = string

  /** An entry of `successful_recommendations`: the record that
      `add_successful_recommendation` appends, or a bare string that a caller
      put there through `update_user_profile`. */
  datatype RecEntry = RecDict(recommendation: string, timestamp: string) | RecText(text: string)

  /** An entry of `previous_analyses`; the analysis itself is opaque here. */
  datatype AnalysisRecord = AnalysisRecord(timestamp: string, productAnalysis: string)

  /** The profile record of one user. */
  datatype Profile = Profile(
    segment: string,
    ageGroup: string,
    medicalConditions: seq<string>,
    allergies: seq<string>,
    dietPreferences: seq<string>,
    hasChildren: bool,
    babyAgeMonths: Option<int>,
    previousAnalyses: seq<AnalysisRecord>,
    chatInteractions: int,
    commonComplaints: seq<string>,
    successfulRecommendations: seq<RecEntry>,
    createdAt: string,
    lastActive: string)

  /** The keys a caller may pass to `update_user_profile`; `None` leaves a
      field as it is. */
  datatype ProfileUpdate = ProfileUpdate(
    segment: Option<string>,
    ageGroup: Option<string>,
    medicalConditions: Option<seq<string>>,
    allergies: Option<seq<string>>,
    dietPreferences: Option<seq<string>>,
    hasChildren: Option<bool>,
    babyAgeMonths: Option<Option<int>>,
    previousAnalyses: Option<seq<AnalysisRecord>>,
    chatInteractions: Option<int>,
    commonComplaints: Option<seq<string>>,
    successfulRecommendations: Option<seq<RecEntry>>,
    createdAt: Option<string>,
    lastActive: Option<string>)

  // ------------------------------------------------------ segment catalogue

  datatype Segment = Segment(name: string, conditions: seq<string>, description: string)

  /** `segment_definitions`, in declaration order (which is the order the
      segment choice visits them). */
  const Catalogue: seq<Segment> := [
    Segment("baby_parents_0_6", ["has_baby_0_6"], "Parents with babies 0-6 months"),
    Segment("baby_parents_6_12", ["has_baby_6_12"], "Parents with babies 6-12 months"),
    Segment("diabetes_management", ["diabetes"], "Users managing diabetes"),
    Segment("heart_health", ["heart_disease", "hypertension"], "Users with heart conditions"),
    Segment("digestive_issues", ["bloating", "ibs", "lactose_intolerant"], "Users with digestive problems"),
    Segment("allergy_management", ["nut_allergy", "soy_allergy", "gluten_sensitivity"], "Users managing food allergies"),
    Segment("general_health", [], "General health conscious users")
  ]

  predicate IsSegmentName(s: string) {
    exists i :: 0 <= i < |Catalogue| && Catalogue[i].name == s
  }

  /** `segment_definitions.get(segment, {}).get('description', '')`. */
  function SegmentDescription(segment: string): (d: string)
    ensures forall i :: 0 <= i < |Catalogue| && Catalogue[i].name == segment ==> d == Catalogue[i].description
    ensures !IsSegmentName(segment) ==> d == ""
  {
    DescriptionIn(Catalogue, segment)
  }

  function DescriptionIn(segs: seq<Segment>, segment: string): (d: string)
    requires forall i, j :: 0 <= i < j < |segs| ==> segs[i].name != segs[j].name
    ensures forall i :: 0 <= i < |segs| && segs[i].name == segment ==> d == segs[i].description
    ensures (forall i :: 0 <= i < |segs| ==> segs[i].name != segment) ==> d == ""
  {
    if segs == [] then ""
    else if segs[0].name == segment then segs[0].description
    else DescriptionIn(segs[1..], segment)
  }

  /** The part of a profile the segment choice looks at. */
  datatype Tags = Tags(conditions: seq<string>, allergies: seq<string>, babyAgeMonths: Option<int>)

  function TagsOf(p: Profile): Tags {
    Tags(p.medicalConditions, p.allergies, p.babyAgeMonths)
  }

  /** Python truthiness of `baby_age_months`: present and non-zero. */
  predicate BabyAgeTruthy(t: Tags) {
    t.babyAgeMonths.Some? && t.babyAgeMonths.value != 0
  }

  /** One condition of a segment definition holds for the tags: it is listed
      among the conditions or allergies, or it is one of the two baby tags and
      the baby's age is truthy and in range. */
  predicate ConditionMatches(c: string, t: Tags) {
    if c in t.conditions || c in t.allergies then true
    else if c == "has_baby_0_6" && BabyAgeTruthy(t) && t.babyAgeMonths.value <= 6 then true
    else c == "has_baby_6_12" && BabyAgeTruthy(t) && 6 < t.babyAgeMonths.value <= 12
  }

  /** The number of conditions in `conds` that hold for `t`. */
  function MatchCount(conds: seq<string>, t: Tags): nat {
    if conds == [] then 0
    else MatchCount(conds[..|conds| - 1], t) + (if ConditionMatches(conds[|conds| - 1], t) then 1 else 0)
  }

  /** The running choice of the segment loop: the best segment so far and its
      number of matches. */
  datatype Choice = Choice(name: string, matches: nat)

  /** The choice after visiting `segs` in order, starting from
      `'general_health'` with 0 matches and replacing it only on a strictly
      larger count. */
  function Best(segs: seq<Segment>, t: Tags): Choice {
    if segs == [] then Choice("general_health", 0)
    else
      var c := Best(segs[..|segs| - 1], t);
      var m := MatchCount(segs[|segs| - 1].conditions, t);
      if m > c.matches then Choice(segs[|segs| - 1].name, m) else c
  }

  /** The segment `assign_user_segment` gives a profile with these tags. */
  function SegmentOf(t: Tags): string {
    Best(Catalogue, t).name
  }

  predicate Segmented(p: Profile) {
    p.segment == SegmentOf(TagsOf(p))
  }

  /** No segment has more matches than the choice, and a choice without
      matches is `'general_health'`. */
  lemma {:induction false} BestBounds(segs: seq<Segment>, t: Tags)
    ensures forall j :: 0 <= j < |segs| ==> MatchCount(segs[j].conditions, t) <= Best(segs, t).matches
    ensures Best(segs, t).matches == 0 ==> Best(segs, t).name == "general_health"
  {
    if segs != [] {
      var init := segs[..|segs| - 1];
      BestBounds(init, t);
      assert forall j :: 0 <= j < |init| ==> init[j] == segs[j];
    }
  }

  /** A choice with matches is the first segment with the largest count. */
  lemma {:induction false} BestIsFirstMaximum(segs: seq<Segment>, t: Tags)
    ensures Best(segs, t).matches > 0 ==> exists i :: (0 <= i < |segs| && segs[i].name == Best(segs, t).name
      && MatchCount(segs[i].conditions, t) == Best(segs, t).matches
      && forall j :: 0 <= j < i ==> MatchCount(segs[j].conditions, t) < Best(segs, t).matches)
  {
    if segs != [] {
      var init := segs[..|segs| - 1];
      BestIsFirstMaximum(init, t);
      var c := Best(init, t);
      var m := MatchCount(segs[|segs| - 1].conditions, t);
      if m > c.matches {
        BestBounds(init, t);
        assert forall j :: 0 <= j < |segs| - 1 ==> segs[j] == init[j];
      } else if c.matches > 0 {
        var i :| 0 <= i < |init| && init[i].name == c.name && MatchCount(init[i].conditions, t) == c.matches
          && forall j :: 0 <= j < i ==> MatchCount(init[j].conditions, t) < c.matches;
        assert forall j :: 0 <= j <= i ==> segs[j] == init[j];
      }
    }
  }

  /** The assigned segment is always a key of the catalogue and no segment
      has more matches; when some segment matches, it is the first one with the
      largest count; and zero matches, and only they, give
      `'general_health'`. */
  lemma SegmentOfIsFirstMaximum(t: Tags)
    ensures IsSegmentName(SegmentOf(t))
    ensures forall j :: 0 <= j < |Catalogue| ==> MatchCount(Catalogue[j].conditions, t) <= Best(Catalogue, t).matches
    ensures Best(Catalogue, t).matches > 0 ==> exists i :: (0 <= i < |Catalogue| && Catalogue[i].name == SegmentOf(t)
      && MatchCount(Catalogue[i].conditions, t) == Best(Catalogue, t).matches
      && forall j :: 0 <= j < i ==> MatchCount(Catalogue[j].conditions, t) < Best(Catalogue, t).matches)
    ensures Best(Catalogue, t).matches == 0 <==> SegmentOf(t) == "general_health"
  {
    BestBounds(Catalogue, t);
    BestIsFirstMaximum(Catalogue, t);
    var c := Best(Catalogue, t);
    assert MatchCount(Catalogue[6].conditions, t) == 0;
    if c.matches == 0 {
      assert Catalogue[6].name == SegmentOf(t);
    } else {
      var i :| 0 <= i < |Catalogue| && Catalogue[i].name == c.name
        && MatchCount(Catalogue[i].conditions, t) == c.matches;
      assert i != 6;
      assert forall j :: 0 <= j < 6 ==> Catalogue[j].name != "general_health";
    }
  }

  /** A single condition counts once or not at all. */
  lemma MatchOne(c: string, t: Tags)
    ensures MatchCount([c], t) == if ConditionMatches(c, t) then 1 else 0
  {
    assert [c][..0] == [];
  }

  /** A user who lists no conditions or allergies is placed by the baby's age
      alone: a truthy age up to 6 months gives `baby_parents_0_6` (so 0, None
      and negative ages behave differently: 0 and None never match), 7 to 12
      gives `baby_parents_6_12`, anything else `general_health`. */
  lemma BabySegments(baby: Option<int>)
    ensures SegmentOf(Tags([], [], baby)) ==
      if baby.Some? && baby.value != 0 && baby.value <= 6 then "baby_parents_0_6"
      else if baby.Some? && 6 < baby.value <= 12 then "baby_parents_6_12"
      else "general_health"
  {
    var t := Tags([], [], baby);
    EmptyTagCounts(t);
    SegmentOfIsFirstMaximum(t);
    var m := Best(Catalogue, t).matches;
    var c0 := MatchCount(Catalogue[0].conditions, t);
    var c1 := MatchCount(Catalogue[1].conditions, t);
    if m > 0 {
      var i :| 0 <= i < |Catalogue| && Catalogue[i].name == SegmentOf(t)
        && MatchCount(Catalogue[i].conditions, t) == m
        && forall j :: 0 <= j < i ==> MatchCount(Catalogue[j].conditions, t) < m;
      assert m == 1 && i <= 1;
      if c0 == 1 {
        assert i == 0;
      } else {
        assert i == 1;
      }
    } else {
      assert c0 == 0 && c1 == 0;
    }
  }

  /** With no conditions or allergies only the baby segments can match. */
  lemma EmptyTagCounts(t: Tags)
    requires t.conditions == [] && t.allergies == []
    ensures MatchCount(Catalogue[0].conditions, t) ==
      if BabyAgeTruthy(t) && t.babyAgeMonths.value <= 6 then 1 else 0
    ensures MatchCount(Catalogue[1].conditions, t) ==
      if BabyAgeTruthy(t) && 6 < t.babyAgeMonths.value <= 12 then 1 else 0
    ensures forall j :: 2 <= j < |Catalogue| ==> MatchCount(Catalogue[j].conditions, t) == 0
  {
    MatchOne("has_baby_0_6", t);
    MatchOne("has_baby_6_12", t);
    NoTagsMatchNothing(Catalogue[2].conditions, t);
    NoTagsMatchNothing(Catalogue[3].conditions, t);
    NoTagsMatchNothing(Catalogue[4].conditions, t);
    NoTagsMatchNothing(Catalogue[5].conditions, t);
    NoTagsMatchNothing(Catalogue[6].conditions, t);
  }

  /** Conditions other than the two baby tags never hold for empty lists. */
  lemma {:induction false} NoTagsMatchNothing(conds: seq<string>, t: Tags)
    requires t.conditions == [] && t.allergies == []
    requires forall i :: 0 <= i < |conds| ==> conds[i] != "has_baby_0_6" && conds[i] != "has_baby_6_12"
    ensures MatchCount(conds, t) == 0
  {
    if conds != [] {
      NoTagsMatchNothing(conds[..|conds| - 1], t);
    }
  }

  /** `assign_user_segment`'s loop, computing the segment without storing it:
      the running maximum over the catalogue and a count per segment. */
  method ChooseSegment(t: Tags) returns (name: string)
    ensures name == SegmentOf(t)
    ensures IsSegmentName(name)
  {
    name := "general_health";
    var maxMatches := 0;
    var i := 0;
    while i < |Catalogue|
      invariant 0 <= i <= |Catalogue|
      invariant Choice(name, maxMatches) == Best(Catalogue[..i], t)
    {
      var seg := Catalogue[i];
      var matches := 0;
      var j := 0;
      while j < |seg.conditions|
        invariant 0 <= j <= |seg.conditions|
        invariant matches == MatchCount(seg.conditions[..j], t)
      {
        assert seg.conditions[..j + 1][..j] == seg.conditions[..j];
        if ConditionMatches(seg.conditions[j], t) {
          matches := matches + 1;
        }
        j := j + 1;
      }
      assert seg.conditions[..j] == seg.conditions;
      assert Catalogue[..i + 1][..i] == Catalogue[..i];
      if matches > maxMatches {
        maxMatches := matches;
        name := seg.name;
      }
      i := i + 1;
    }
    assert Catalogue[..i] == Catalogue;
    SegmentOfIsFirstMaximum(t);
  }

  // --------------------------------------------------------- profile values

  /** The record `get_or_create_user_profile` stores for a new user. */
  function NewProfile(now: string): (p: Profile)
    ensures p.segment == "general_health" && p.chatInteractions == 0
  {
    Profile("general_health", "adult", [], [], [], false, None, [], 0, [], [], now, now)
  }

  /** A new profile is already in its right segment. */
  lemma NewProfileSegmented(now: string)
    ensures Segmented(NewProfile(now))
  {
    BabySegments(None);
  }

  /** The refresh every access makes: `last_active` and one more interaction. */
  function Touch(p: Profile, now: string): (q: Profile)
    ensures q.chatInteractions == p.chatInteractions + 1 && q.lastActive == now
    ensures q.(chatInteractions := p.chatInteractions, lastActive := p.lastActive) == p
  {
    p.(lastActive := now, chatInteractions := p.chatInteractions + 1)
  }

  /** The profile after an access: a new record for an unknown user. */
  function Accessed(profiles: map<UserId, Profile>, uid: UserId, now: string): Profile {
    if uid in profiles then Touch(profiles[uid], now) else Touch(NewProfile(now), now)
  }

  /** The first access yields segment `'general_health'` and one interaction;
      a later access adds exactly one interaction and refreshes `last_active`,
      leaving every other field as it was. */
  lemma AccessedFacts(profiles: map<UserId, Profile>, uid: UserId, now: string)
    ensures uid !in profiles ==> (Accessed(profiles, uid, now).segment == "general_health"
      && Accessed(profiles, uid, now).chatInteractions == 1)
    ensures uid in profiles ==>
      (Accessed(profiles, uid, now).chatInteractions == profiles[uid].chatInteractions + 1
      && Accessed(profiles, uid, now).(chatInteractions := profiles[uid].chatInteractions, lastActive := profiles[uid].lastActive) == profiles[uid])
  {
  }

  /** `profile.update(updates)`. */
  function ApplyUpdate(p: Profile, u: ProfileUpdate): Profile {
    p.(
      segment := if u.segment.Some? then u.segment.value else p.segment,
      ageGroup := if u.ageGroup.Some? then u.ageGroup.value else p.ageGroup,
      medicalConditions := if u.medicalConditions.Some? then u.medicalConditions.value else p.medicalConditions,
      allergies := if u.allergies.Some? then u.allergies.value else p.allergies,
      dietPreferences := if u.dietPreferences.Some? then u.dietPreferences.value else p.dietPreferences,
      hasChildren := if u.hasChildren.Some? then u.hasChildren.value else p.hasChildren,
      babyAgeMonths := if u.babyAgeMonths.Some? then u.babyAgeMonths.value else p.babyAgeMonths,
      commonComplaints := if u.commonComplaints.Some? then u.commonComplaints.value else p.commonComplaints,
      previousAnalyses := if u.previousAnalyses.Some? then u.previousAnalyses.value else p.previousAnalyses,
      chatInteractions := if u.chatInteractions.Some? then u.chatInteractions.value else p.chatInteractions,
      successfulRecommendations := if u.successfulRecommendations.Some? then u.successfulRecommendations.value else p.successfulRecommendations,
      createdAt := if u.createdAt.Some? then u.createdAt.value else p.createdAt,
      lastActive := if u.lastActive.Some? then u.lastActive.value else p.lastActive)
  }

  /** The profile with its segment recomputed. */
  function Reassigned(p: Profile): (q: Profile)
    ensures Segmented(q) && IsSegmentName(q.segment)
    ensures q.(segment := p.segment) == p
  {
    SegmentOfIsFirstMaximum(TagsOf(p));
    p.(segment := SegmentOf(TagsOf(p)))
  }

  /** The effect of `update_from_chat_interaction` on a profile, exactly as
      written: the substring tests look at `interaction_type` itself. */
  function ChatEffect(p: Profile, interactionType: string): Profile {
    if interactionType == "symptom_report" then
      var p1 :=
        if Contains(Lower(interactionType), "bloating") && "bloating" !in p.commonComplaints
        then p.(commonComplaints := p.commonComplaints + ["bloating"],
                medicalConditions := p.medicalConditions + ["digestive_issues"])
        else p;
      if Contains(Lower(interactionType), "baby") && !p1.hasChildren then p1.(hasChildren := true) else p1
    else p
  }

  /** The tests can only run when `interaction_type` is `"symptom_report"`,
      which contains neither "bloating" nor "baby": the function changes
      nothing, for every profile and every interaction type. */
  lemma ChatEffectIsIdentity(p: Profile, interactionType: string)
    ensures ChatEffect(p, interactionType) == p
  {
    SymptomReportTests();
  }

  /** Neither word occurs in the lowered constant. */
  lemma SymptomReportTests()
    ensures !Contains(Lower("symptom_report"), "bloating")
    ensures !Contains(Lower("symptom_report"), "baby")
  {
    LowerSymptomReport();
    SymptomReportWords();
  }

  lemma SymptomReportWords()
    ensures !Contains("symptom_report", "bloating") && !Contains("symptom_report", "baby")
  {
    var s: string := "symptom_report";
    assert forall i :: 0 <= i < |s| ==> s[i] != 'b';
    AbsentHead(s, "bloating");
    AbsentHead(s, "baby");
  }

  lemma LowerSymptomReport()
    ensures Lower("symptom_report") == "symptom_report"
  {
    LowerIdentity("symptom_report");
  }



  /** The evidently intended effect: the tests look at the user's message. */
  function SymptomEffect(p: Profile, message: string): (q: Profile)
    ensures Contains(Lower(message), "bloating") ==> "bloating" in q.commonComplaints
    ensures Contains(Lower(message), "bloating") && "bloating" !in p.commonComplaints ==>
      q.commonComplaints == p.commonComplaints + ["bloating"] && q.medicalConditions == p.medicalConditions + ["digestive_issues"]
    ensures Contains(Lower(message), "baby") ==> q.hasChildren
    ensures !Contains(Lower(message), "bloating") && !Contains(Lower(message), "baby") ==> q == p
    ensures "bloating" in p.commonComplaints || !Contains(Lower(message), "bloating") ==>
      q.commonComplaints == p.commonComplaints && q.medicalConditions == p.medicalConditions
  {
    var p1 :=
      if Contains(Lower(message), "bloating") && "bloating" !in p.commonComplaints
      then p.(commonComplaints := p.commonComplaints + ["bloating"],
              medicalConditions := p.medicalConditions + ["digestive_issues"])
      else p;
    if Contains(Lower(message), "baby") && !p1.hasChildren then p1.(hasChildren := true) else p1
  }

  // ------------------------------------------------------------- similarity

  function SetOf(s: seq<string>): set<string> {
    set x | x in s
  }

  /** |a ∩ b| / |a ∪ b| for non-empty sets. */
  function Jaccard(a: set<string>, b: set<string>): (r: real)
    requires a != {} && b != {}
    ensures 0.0 <= r <= 1.0
    ensures a == b ==> r == 1.0
  {
    var x := a * b;
    var y := a + b;
    SubsetCard(x, y);
    var e :| e in a;
    assert e in y;
    RatioBounds(|x|, |y|);
    assert a == b ==> x == a && y == a;
    (|x| as real) / (|y| as real)
  }

  lemma RatioBounds(x: nat, y: nat)
    requires 0 < y && x <= y
    ensures 0.0 <= (x as real) / (y as real) <= 1.0
    ensures x == y ==> (x as real) / (y as real) == 1.0
  {
  }

  lemma JaccardSymmetric(a: set<string>, b: set<string>)
    requires a != {} && b != {}
    ensures Jaccard(a, b) == Jaccard(b, a)
  {
    assert a * b == b * a && a + b == b + a;
  }

  lemma SubsetCard(x: set<string>, y: set<string>)
    requires x <= y
    ensures |x| <= |y|
  {
    assert y == x + (y - x);
  }

  /** The uncapped score: 0.4 of the condition Jaccard index, 0.3 for the same
      age group, 0.3 of the diet Jaccard index, each Jaccard term counted only
      when both sets are non-empty. */
  function RawSimilarity(p1: Profile, p2: Profile): real {
    var c1, c2 := SetOf(p1.medicalConditions), SetOf(p2.medicalConditions);
    var d1, d2 := SetOf(p1.dietPreferences), SetOf(p2.dietPreferences);
    (if c1 != {} && c2 != {} then Jaccard(c1, c2) * 0.4 else 0.0)
    + (if p1.ageGroup == p2.ageGroup then 0.3 else 0.0)
    + (if d1 != {} && d2 != {} then Jaccard(d1, d2) * 0.3 else 0.0)
  }

  /** `calculate_similarity`: the raw score capped at 1. */
  function CalculateSimilarity(p1: Profile, p2: Profile): (r: real)
    ensures 0.0 <= r <= 1.0
  {
    var s := RawSimilarity(p1, p2);
    assert s >= 0.0 by { RawSimilarityBounds(p1, p2); }
    if s < 1.0 then s else 1.0
  }

  lemma RawSimilarityBounds(p1: Profile, p2: Profile)
    ensures 0.0 <= RawSimilarity(p1, p2) <= 1.0
  {
  }

  /** The weights add up to 1, so the cap never changes the score; and the
      score is symmetric. */
  lemma SimilarityFacts(p1: Profile, p2: Profile)
    ensures CalculateSimilarity(p1, p2) == RawSimilarity(p1, p2)
    ensures CalculateSimilarity(p1, p2) == CalculateSimilarity(p2, p1)
  {
    RawSimilarityBounds(p1, p2);
    RawSimilarityBounds(p2, p1);
    var c1, c2 := SetOf(p1.medicalConditions), SetOf(p2.medicalConditions);
    var d1, d2 := SetOf(p1.dietPreferences), SetOf(p2.dietPreferences);
    if c1 != {} && c2 != {} { JaccardSymmetric(c1, c2); }
    if d1 != {} && d2 != {} { JaccardSymmetric(d1, d2); }
  }

  /** A profile with conditions and diet preferences is fully similar to
      itself, and to nobody more than that. */
  lemma SelfSimilarity(p: Profile)
    requires p.medicalConditions != [] && p.dietPreferences != []
    ensures CalculateSimilarity(p, p) == 1.0
  {
    assert p.medicalConditions[0] in SetOf(p.medicalConditions);
    assert p.dietPreferences[0] in SetOf(p.dietPreferences);
  }

  // ---------------------------------------------------------- similar users

  /** A record of `get_similar_users`' result. */
  datatype Peer = Peer(userId: UserId, similarityScore: real, segment: string,
                       commonConditions: set<string>, successfulRecommendations: seq<RecEntry>)

  function Score(x: Peer): real {
    x.similarityScore
  }

  function PeerOf(other: UserId, current: Profile, p: Profile): Peer {
    Peer(other, CalculateSimilarity(current, p), p.segment,
         SetOf(current.medicalConditions) * SetOf(p.medicalConditions),
         PyTake(p.successfulRecommendations, 3))
  }

  /** The records the loop collects from `ids`, in order: every other user of
      the current user's segment. */
  function Peers(profiles: map<UserId, Profile>, ids: seq<UserId>, uid: UserId, current: Profile): seq<Peer>
    requires forall i :: 0 <= i < |ids| ==> ids[i] in profiles
  {
    if ids == [] then []
    else
      var o := ids[|ids| - 1];
      var rest := Peers(profiles, ids[..|ids| - 1], uid, current);
      if o != uid && profiles[o].segment == current.segment then rest + [PeerOf(o, current, profiles[o])]
      else rest
  }

  /** `x` is the record of another user of `ids` in the current segment,
      scored against the current user. */
  predicate PeerFrom(profiles: map<UserId, Profile>, ids: seq<UserId>, uid: UserId, current: Profile, x: Peer) {
    x.userId in ids && x.userId != uid && x.userId in profiles
    && x == PeerOf(x.userId, current, profiles[x.userId])
    && profiles[x.userId].segment == current.segment
  }

  /** Every collected record is another user of the current segment with its
      score against the current user. */
  lemma {:induction false} PeersSound(profiles: map<UserId, Profile>, ids: seq<UserId>, uid: UserId, current: Profile)
    requires forall i :: 0 <= i < |ids| ==> ids[i] in profiles
    ensures forall k :: 0 <= k < |Peers(profiles, ids, uid, current)| ==>
      PeerFrom(profiles, ids, uid, current, Peers(profiles, ids, uid, current)[k])
  {
    if ids != [] {
      var init := ids[..|ids| - 1];
      var o := ids[|ids| - 1];
      assert forall i :: 0 <= i < |init| ==> init[i] == ids[i];
      PeersSound(profiles, init, uid, current);
      var rest := Peers(profiles, init, uid, current);
      var r := Peers(profiles, ids, uid, current);
      assert forall k :: 0 <= k < |rest| ==> PeerFrom(profiles, ids, uid, current, rest[k]);
      if o != uid && profiles[o].segment == current.segment {
        assert r == rest + [PeerOf(o, current, profiles[o])];
        assert forall k :: 0 <= k < |rest| ==> r[k] == rest[k];
      }
    }
  }

  /** Some record of `r` is about user `id`. */
  predicate Collected(r: seq<Peer>, id: UserId) {
    exists k :: 0 <= k < |r| && r[k].userId == id
  }

  /** Every other user of the current segment among `ids` is collected. */
  lemma {:induction false} PeersComplete(profiles: map<UserId, Profile>, ids: seq<UserId>, uid: UserId, current: Profile)
    requires forall i :: 0 <= i < |ids| ==> ids[i] in profiles
    ensures forall i :: 0 <= i < |ids| && ids[i] != uid && profiles[ids[i]].segment == current.segment ==>
      Collected(Peers(profiles, ids, uid, current), ids[i])
  {
    if ids != [] {
      var init := ids[..|ids| - 1];
      var o := ids[|ids| - 1];
      PeersComplete(profiles, init, uid, current);
      var rest := Peers(profiles, init, uid, current);
      var r := Peers(profiles, ids, uid, current);
      if o != uid && profiles[o].segment == current.segment {
        assert r == rest + [PeerOf(o, current, profiles[o])];
        forall i | 0 <= i < |ids| && ids[i] != uid && profiles[ids[i]].segment == current.segment
          ensures Collected(r, ids[i])
        {
          if i < |init| {
            assert init[i] == ids[i];
            var k :| 0 <= k < |rest| && rest[k].userId == init[i];
            assert r[k] == rest[k];
          } else {
            assert r[|rest|].userId == ids[i];
          }
        }
      } else {
        assert r == rest;
        forall i | 0 <= i < |ids| && ids[i] != uid && profiles[ids[i]].segment == current.segment
          ensures Collected(r, ids[i])
        {
          assert i < |init|;
          assert init[i] == ids[i];
        }
      }
    }
  }

  /** `get_similar_users(user_id, max_users)`: `[]` for an unknown user, else
      the collected records sorted by score (stably, descending) and cut to
      `max_users` with Python slicing. */
  function SimilarUsers(profiles: map<UserId, Profile>, order: seq<UserId>, uid: UserId, maxUsers: int): seq<Peer>
    requires forall i :: 0 <= i < |order| ==> order[i] in profiles
  {
    if uid !in profiles then []
    else PyTake(SortDesc(Peers(profiles, order, uid, profiles[uid]), Score), maxUsers)
  }

  /** A record of another user of `uid`'s segment, scored against `uid`, with
      at most 3 recommendations. */
  predicate PeerOk(profiles: map<UserId, Profile>, uid: UserId, x: Peer)
    requires uid in profiles
  {
    && x.userId != uid && x.userId in profiles
    && x.segment == profiles[uid].segment
    && x.similarityScore == CalculateSimilarity(profiles[uid], profiles[x.userId])
    && |x.successfulRecommendations| <= 3
  }

  /** Results exclude the caller, share the caller's segment, carry the score
      against the caller and at most 3 recommendations. */
  lemma SimilarUsersMembers(profiles: map<UserId, Profile>, order: seq<UserId>, uid: UserId, maxUsers: int)
    requires forall i :: 0 <= i < |order| ==> order[i] in profiles
    ensures uid !in profiles ==> SimilarUsers(profiles, order, uid, maxUsers) == []
    ensures uid in profiles ==> var r := SimilarUsers(profiles, order, uid, maxUsers);
      forall k :: 0 <= k < |r| ==> PeerOk(profiles, uid, r[k])
  {
    if uid in profiles {
      var ps := Peers(profiles, order, uid, profiles[uid]);
      PeersSound(profiles, order, uid, profiles[uid]);
      assert forall j :: 0 <= j < |ps| ==> PeerOk(profiles, uid, ps[j]);
      var sorted := SortDesc(ps, Score);
      SortDescFacts(ps, Score);
      var r := SimilarUsers(profiles, order, uid, maxUsers);
      forall k | 0 <= k < |r|
        ensures PeerOk(profiles, uid, r[k])
      {
        assert r[k] == sorted[k];
        assert sorted[k] in multiset(ps);
        var j :| 0 <= j < |ps| && ps[j] == sorted[k];
      }
    }
  }

  /** Results come by non-increasing score with ties in table order, number
      at most `max_users`, and are the best-scored peers: no peer left out
      scores higher than one returned. */
  lemma SimilarUsersOrder(profiles: map<UserId, Profile>, order: seq<UserId>, uid: UserId, maxUsers: int)
    requires forall i :: 0 <= i < |order| ==> order[i] in profiles
    requires uid in profiles
    ensures var r := SimilarUsers(profiles, order, uid, maxUsers);
      && SortedDesc(r, Score)
      && (maxUsers >= 0 ==> |r| <= maxUsers)
      && (forall s :: WithKey(r, Score, s) <= WithKey(Peers(profiles, order, uid, profiles[uid]), Score, s))
    ensures var r := SimilarUsers(profiles, order, uid, maxUsers);
      forall x, k :: x in Peers(profiles, order, uid, profiles[uid]) && x !in r && 0 <= k < |r| ==>
        Score(x) <= Score(r[k])
  {
    TopScored(Peers(profiles, order, uid, profiles[uid]), maxUsers);
  }

  /** The first `max_users` records by score, as `sorted(...)[:max_users]`
      takes them. */
  lemma TopScored(ps: seq<Peer>, maxUsers: int)
    ensures var r := PyTake(SortDesc(ps, Score), maxUsers);
      && SortedDesc(r, Score)
      && (maxUsers >= 0 ==> |r| <= maxUsers)
      && (forall s :: WithKey(r, Score, s) <= WithKey(ps, Score, s))
      && (forall x, k :: x in ps && x !in r && 0 <= k < |r| ==> Score(x) <= Score(r[k]))
  {
    var n := PyIndex(maxUsers, |ps|);
    TopByKey(ps, n, Score);
    assert PyTake(SortDesc(ps, Score), maxUsers) == SortDesc(ps, Score)[..n];
  }

  /** A result shorter than `max_users` lists every other user of the segment. */
  lemma SimilarUsersComplete(profiles: map<UserId, Profile>, order: seq<UserId>, uid: UserId, maxUsers: int)
    requires forall i :: 0 <= i < |order| ==> order[i] in profiles
    requires uid in profiles
    requires |SimilarUsers(profiles, order, uid, maxUsers)| < maxUsers
    ensures forall i :: 0 <= i < |order| && order[i] != uid && profiles[order[i]].segment == profiles[uid].segment ==>
      Collected(SimilarUsers(profiles, order, uid, maxUsers), order[i])
  {
    var ps := Peers(profiles, order, uid, profiles[uid]);
    PeersComplete(profiles, order, uid, profiles[uid]);
    var sorted := SortDesc(ps, Score);
    SortDescFacts(ps, Score);
    assert SimilarUsers(profiles, order, uid, maxUsers) == sorted;
    forall i | 0 <= i < |order| && order[i] != uid && profiles[order[i]].segment == profiles[uid].segment
      ensures Collected(sorted, order[i])
    {
      CollectedPermuted(ps, sorted, order[i]);
    }
  }

  /** Reordering keeps every collected user. */
  lemma CollectedPermuted(a: seq<Peer>, b: seq<Peer>, id: UserId)
    requires multiset(a) == multiset(b) && Collected(a, id)
    ensures Collected(b, id)
  {
    var j :| 0 <= j < |a| && a[j].userId == id;
    assert a[j] in multiset(b);
    var k :| 0 <= k < |b| && b[k] == a[j];
  }

  // ------------------------------------------------------ community insights

  /** The summary `get_community_insights` returns, or its message for an
      empty segment. */
  datatype Insights =
    | NoCommunityData(message: string)
    | Summary(totalUsersInSegment: nat, commonComplaints: seq<string>,
              successfulSolutions: seq<string>, segmentDescription: string)

  /** The users of a segment, in table order. */
  function Members(profiles: map<UserId, Profile>, ids: seq<UserId>, segment: string): (r: seq<UserId>)
    requires forall i :: 0 <= i < |ids| ==> ids[i] in profiles
    ensures forall k :: 0 <= k < |r| ==> r[k] in profiles && r[k] in ids && profiles[r[k]].segment == segment
    ensures forall i :: 0 <= i < |ids| && profiles[ids[i]].segment == segment ==> ids[i] in r
    ensures |r| <= |ids|
  {
    if ids == [] then []
    else
      var rest := Members(profiles, ids[..|ids| - 1], segment);
      assert forall i :: 0 <= i < |ids| - 1 ==> ids[..|ids| - 1][i] == ids[i];
      if profiles[ids[|ids| - 1]].segment == segment then rest + [ids[|ids| - 1]] else rest
  }

  /** The members' complaints, concatenated in member order. */
  function AllComplaints(profiles: map<UserId, Profile>, ids: seq<UserId>): seq<string>
    requires forall i :: 0 <= i < |ids| ==> ids[i] in profiles
  {
    if ids == [] then [] else AllComplaints(profiles, ids[..|ids| - 1]) + profiles[ids[|ids| - 1]].commonComplaints
  }

  /** The members' successful recommendations, concatenated in member order. */
  function AllRecommendations(profiles: map<UserId, Profile>, ids: seq<UserId>): seq<RecEntry>
    requires forall i :: 0 <= i < |ids| ==> ids[i] in profiles
  {
    if ids == [] then [] else AllRecommendations(profiles, ids[..|ids| - 1]) + profiles[ids[|ids| - 1]].successfulRecommendations
  }

  /** A dict cannot be a `Counter` key. */
  predicate Hashable(recs: seq<RecEntry>) {
    forall i :: 0 <= i < |recs| ==> recs[i].RecText?
  }

  function Texts(recs: seq<RecEntry>): (r: seq<string>)
    ensures |r| == |recs|
    ensures forall i :: 0 <= i < |recs| && recs[i].RecText? ==> r[i] == recs[i].text
  {
    if recs == [] then []
    else [if recs[0].RecText? then recs[0].text else recs[0].recommendation] + Texts(recs[1..])
  }

  const UnhashableDict := "unhashable type: 'dict'"

  function NoDataMessage(segment: string): string {
    "No community data available for " + segment + " segment"
  }

  /** `get_community_insights(segment, problem_type)` as written: the
      recommendations go into a `Counter` too, which raises on the records
      `add_successful_recommendation` stores. */
  function CommunityInsights(profiles: map<UserId, Profile>, order: seq<UserId>, segment: string): Raises<Insights>
    requires forall i :: 0 <= i < |order| ==> order[i] in profiles
  {
    var members := Members(profiles, order, segment);
    if members == [] then Returns(NoCommunityData(NoDataMessage(segment)))
    else
      var recs := AllRecommendations(profiles, members);
      if !Hashable(recs) then Raised(UnhashableDict)
      else Returns(Summary(|members|, MostCommon(AllComplaints(profiles, members), 3),
                           MostCommon(Texts(recs), 3), SegmentDescription(segment)))
  }

  /** An empty segment gives the message; otherwise the call fails exactly when
      some member holds a recorded recommendation, and when it succeeds the
      total is the member count and each top list holds the (at most 3)
      most frequent distinct entries, by non-increasing frequency with ties in
      first-seen order, the cut keeping the first-seen of equal counts. */
  lemma CommunityInsightsFacts(profiles: map<UserId, Profile>, order: seq<UserId>, segment: string)
    requires forall i :: 0 <= i < |order| ==> order[i] in profiles
    ensures var members := Members(profiles, order, segment);
      && (members == [] <==> CommunityInsights(profiles, order, segment) == Returns(NoCommunityData(NoDataMessage(segment))))
      && (members != [] ==>
            (CommunityInsights(profiles, order, segment).Raised? <==>
             exists k, j :: 0 <= k < |members| && 0 <= j < |profiles[members[k]].successfulRecommendations|
               && profiles[members[k]].successfulRecommendations[j].RecDict?))
    ensures match CommunityInsights(profiles, order, segment)
      case Returns(Summary(total, complaints, solutions, _)) =>
        && total == |Members(profiles, order, segment)|
        && |complaints| <= 3 && NoDuplicates(complaints) && |solutions| <= 3 && NoDuplicates(solutions)
        && (forall i, j :: 0 <= i < j < |complaints| ==>
              Count(AllComplaints(profiles, Members(profiles, order, segment)), complaints[i])
              >= Count(AllComplaints(profiles, Members(profiles, order, segment)), complaints[j]))
      case _ => true
    ensures match CommunityInsights(profiles, order, segment)
      case Returns(Summary(_, complaints, solutions, _)) =>
        && IsMostCommon(complaints, AllComplaints(profiles, Members(profiles, order, segment)), 3)
        && IsMostCommon(solutions, Texts(AllRecommendations(profiles, Members(profiles, order, segment))), 3)
      case _ => true
  {
    var members := Members(profiles, order, segment);
    if members != [] {
      var recs := AllRecommendations(profiles, members);
      RecommendationsOfMembers(profiles, members);
      MostCommonShape(AllComplaints(profiles, members), 3);
      MostCommonOrder(AllComplaints(profiles, members), 3);
      MostCommonShape(Texts(recs), 3);
      MostCommonIsMostCommon(AllComplaints(profiles, members), 3);
      MostCommonIsMostCommon(Texts(recs), 3);
    }
  }

  /** A recommendation entry is a dict exactly when some member holds one. */
  lemma {:induction false} RecommendationsOfMembers(profiles: map<UserId, Profile>, ids: seq<UserId>)
    requires forall i :: 0 <= i < |ids| ==> ids[i] in profiles
    ensures !Hashable(AllRecommendations(profiles, ids)) <==>
      exists k, j :: 0 <= k < |ids| && 0 <= j < |profiles[ids[k]].successfulRecommendations|
        && profiles[ids[k]].successfulRecommendations[j].RecDict?
  {
    if ids != [] {
      var init := ids[..|ids| - 1];
      var last := profiles[ids[|ids| - 1]].successfulRecommendations;
      RecommendationsOfMembers(profiles, init);
      var a := AllRecommendations(profiles, init);
      assert AllRecommendations(profiles, ids) == a + last;
      if !Hashable(a + last) {
        var i :| 0 <= i < |a + last| && (a + last)[i].RecDict?;
        if i >= |a| {
          assert last[i - |a|].RecDict?;
        } else {
          var k, j :| 0 <= k < |init| && 0 <= j < |profiles[init[k]].successfulRecommendations|
            && profiles[init[k]].successfulRecommendations[j].RecDict?;
          assert init[k] == ids[k];
        }
      }
      if exists k, j :: (0 <= k < |ids| && 0 <= j < |profiles[ids[k]].successfulRecommendations|
        && profiles[ids[k]].successfulRecommendations[j].RecDict?) {
        var k, j :| 0 <= k < |ids| && 0 <= j < |profiles[ids[k]].successfulRecommendations|
          && profiles[ids[k]].successfulRecommendations[j].RecDict?;
        if k == |ids| - 1 {
          assert (a + last)[|a| + j].RecDict?;
        } else {
          assert init[k] == ids[k];
          assert !Hashable(a);
          var i :| 0 <= i < |a| && a[i].RecDict?;
          assert (a + last)[i].RecDict?;
        }
      }
    }
  }

  /** The evidently intended insights: recommendations are counted by their
      text, which never fails; the complaint side is unchanged. */
  function CommunityInsightsIntended(profiles: map<UserId, Profile>, order: seq<UserId>, segment: string): (r: Insights)
    requires forall i :: 0 <= i < |order| ==> order[i] in profiles
    ensures r.NoCommunityData? <==> Members(profiles, order, segment) == []
    ensures r.Summary? ==> (|r.successfulSolutions| <= 3
      && forall i :: 0 <= i < |r.successfulSolutions| ==>
           r.successfulSolutions[i] in Texts(AllRecommendations(profiles, Members(profiles, order, segment))))
    ensures CommunityInsights(profiles, order, segment).Returns? ==> Returns(r) == CommunityInsights(profiles, order, segment)
  {
    var members := Members(profiles, order, segment);
    if members == [] then NoCommunityData(NoDataMessage(segment))
    else
      var texts := Texts(AllRecommendations(profiles, members));
      MostCommonShape(texts, 3);
      Summary(|members|, MostCommon(AllComplaints(profiles, members), 3),
              MostCommon(texts, 3), SegmentDescription(segment))
  }

  // ------------------------------------------------------------ the agent

  /** `order` lists every user of the table once, in insertion order. */
  ghost predicate OrderValid(profiles: map<UserId, Profile>, order: seq<UserId>) {
    && NoDuplicates(order)
    && (forall i :: 0 <= i < |order| ==> order[i] in profiles)
    && (forall u :: u in profiles ==> u in order)
  }

  /** `user_segments` has no stray keys, and every user outside `pending` is
      in the segment its tags select, with `user_segments` agreeing. */
  ghost predicate SegmentsValid(profiles: map<UserId, Profile>, userSegments: map<UserId, string>, pending: set<UserId>) {
    && (forall u :: u in userSegments ==> u in profiles)
    && (forall u :: u in profiles && u !in pending ==>
          u in userSegments && Segmented(profiles[u]) && userSegments[u] == profiles[u].segment)
  }

  /** The invariant of the table. */
  ghost predicate TableValid(profiles: map<UserId, Profile>, order: seq<UserId>, userSegments: map<UserId, string>) {
    OrderValid(profiles, order) && SegmentsValid(profiles, userSegments, {})
  }

  /** Storing a profile under an existing key keeps the order. */
  lemma OrderPutExisting(profiles: map<UserId, Profile>, order: seq<UserId>, uid: UserId, p: Profile)
    requires OrderValid(profiles, order) && uid in profiles
    ensures OrderValid(profiles[uid := p], order)
  {
  }

  /** Storing a profile under a new key appends the key to the order. */
  lemma OrderPutNew(profiles: map<UserId, Profile>, order: seq<UserId>, uid: UserId, p: Profile)
    requires OrderValid(profiles, order) && uid !in profiles
    ensures OrderValid(profiles[uid := p], order + [uid])
  {
    var o := order + [uid];
    forall i, j | 0 <= i < j < |o| ensures o[i] != o[j] {
      if j == |order| { assert o[i] == order[i]; }
    }
  }

  /** Storing a profile leaves only that user's segment to be assigned. */
  lemma SegmentsPut(profiles: map<UserId, Profile>, userSegments: map<UserId, string>, uid: UserId, p: Profile)
    requires SegmentsValid(profiles, userSegments, {})
    ensures SegmentsValid(profiles[uid := p], userSegments, {uid})
  {
  }

  /** Storing a profile whose segment field and tags are those already stored
      keeps everything valid. */
  lemma SegmentsPutSameTags(profiles: map<UserId, Profile>, userSegments: map<UserId, string>, uid: UserId, p: Profile)
    requires SegmentsValid(profiles, userSegments, {}) && uid in profiles
    requires TagsOf(p) == TagsOf(profiles[uid]) && p.segment == profiles[uid].segment
    ensures SegmentsValid(profiles[uid := p], userSegments, {})
  {
    var q := profiles[uid := p];
    forall u | u in q ensures u in userSegments && Segmented(q[u]) && userSegments[u] == q[u].segment {
      if u == uid {
        SameTagsSegmented(profiles[uid], p);
      }
    }
  }

  lemma SameTagsSegmented(p: Profile, q: Profile)
    requires Segmented(p) && TagsOf(q) == TagsOf(p) && q.segment == p.segment
    ensures Segmented(q)
  {
  }

  /** Assigning the pending user's segment makes everything valid. */
  lemma SegmentsAssign(profiles: map<UserId, Profile>, userSegments: map<UserId, string>, uid: UserId)
    requires SegmentsValid(profiles, userSegments, {uid}) && uid in profiles
    ensures SegmentsValid(profiles[uid := Reassigned(profiles[uid])], userSegments[uid := Reassigned(profiles[uid]).segment], {})
  {
  }

  lemma PutSame<K, V>(m: map<K, V>, k: K)
    requires k in m
    ensures m[k := m[k]] == m
  {
  }

  lemma PutTwice<K, V>(m: map<K, V>, k: K, a: V, b: V)
    ensures m[k := a][k := b] == m[k := b]
  {
  }

  class MemoryAgent {
    /** `user_profiles`. */
    var profiles: map<UserId, Profile>
    /** The insertion order of `user_profiles`, which its iteration follows. */
    var order: seq<UserId>
    /** `user_segments`. */
    var userSegments: map<UserId, string>

    ghost predicate Valid()
      reads this
    {
      TableValid(profiles, order, userSegments)
    }

    constructor ()
      ensures Valid()
      ensures profiles == map[] && order == [] && userSegments == map[]
    {
      profiles := map[];
      order := [];
      userSegments := map[];
    }

    /** `assign_user_segment(user_id)`, called while `uid`'s segment is the
      only thing out of date. */
    method AssignUserSegment(uid: UserId)
      requires uid in profiles
      requires OrderValid(profiles, order) && SegmentsValid(profiles, userSegments, {uid})
      modifies this
      ensures Valid()
      ensures profiles == old(profiles)[uid := Reassigned(old(profiles)[uid])]
      ensures userSegments == old(userSegments)[uid := profiles[uid].segment]
      ensures order == old(order)
    {
      var best := ChooseSegment(TagsOf(profiles[uid]));
      SegmentsAssign(profiles, userSegments, uid);
      OrderPutExisting(profiles, order, uid, Reassigned(profiles[uid]));
      profiles := profiles[uid := profiles[uid].(segment := best)];
      userSegments := userSegments[uid := best];
    }

    /** `get_or_create_user_profile(user_id)`, with `now` for the clock. */
    method GetOrCreateUserProfile(uid: UserId, now: string) returns (p: Profile)
      requires Valid()
      modifies this
      ensures Valid()
      ensures p == Accessed(old(profiles), uid, now)
      ensures profiles == old(profiles)[uid := p]
      ensures userSegments == old(userSegments)[uid := p.segment]
      ensures order == if uid in old(profiles) then old(order) else old(order) + [uid]
    {
      if uid !in profiles {
        NewProfileSegmented(now);
        OrderPutNew(profiles, order, uid, NewProfile(now));
        SegmentsPut(profiles, userSegments, uid, NewProfile(now));
        PutTwice(profiles, uid, NewProfile(now), NewProfile(now));
        profiles := profiles[uid := NewProfile(now)];
        order := order + [uid];
        AssignUserSegment(uid);
        p := Touch(NewProfile(now), now);
        PutTwice(old(profiles), uid, NewProfile(now), p);
      } else {
        p := Touch(profiles[uid], now);
        PutSame(userSegments, uid);
      }
      SegmentsPutSameTags(profiles, userSegments, uid, p);
      OrderPutExisting(profiles, order, uid, p);
      profiles := profiles[uid := p];
    }

    /** Replaces `uid`'s profile by `q` and reassigns its segment: the common
      tail of the updating operations. */
    method StoreAndAssign(uid: UserId, q: Profile)
      requires Valid() && uid in profiles
      modifies this
      ensures Valid()
      ensures profiles == old(profiles)[uid := Reassigned(q)]
      ensures userSegments == old(userSegments)[uid := Reassigned(q).segment]
      ensures order == old(order)
    {
      SegmentsPut(profiles, userSegments, uid, q);
      OrderPutExisting(profiles, order, uid, q);
      PutTwice(profiles, uid, q, Reassigned(q));
      profiles := profiles[uid := q];
      AssignUserSegment(uid);
    }

    /** `update_from_chat_interaction(user_id, interaction_type, sentiment)`; the
      sentiment is never read. */
    method UpdateFromChatInteraction(uid: UserId, interactionType: string, sentiment: string, now: string)
      requires Valid()
      modifies this
      ensures Valid()
      ensures profiles == old(profiles)[uid := Reassigned(ChatEffect(Accessed(old(profiles), uid, now), interactionType))]
      ensures userSegments == old(userSegments)[uid := profiles[uid].segment]
      ensures order == if uid in old(profiles) then old(order) else old(order) + [uid]
    {
      var p := GetOrCreateUserProfile(uid, now);
      PutTwice(old(profiles), uid, p, Reassigned(ChatEffect(p, interactionType)));
      PutTwice(old(userSegments), uid, p.segment, Reassigned(ChatEffect(p, interactionType)).segment);
      StoreAndAssign(uid, ChatEffect(p, interactionType));
    }

    /** `update_user_profile(user_id, updates)`. */
    method UpdateUserProfile(uid: UserId, updates: ProfileUpdate, now: string)
      requires Valid()
      modifies this
      ensures Valid()
      ensures profiles == old(profiles)[uid := Reassigned(ApplyUpdate(Accessed(old(profiles), uid, now), updates))]
      ensures userSegments[uid] == profiles[uid].segment == SegmentOf(TagsOf(ApplyUpdate(Accessed(old(profiles), uid, now), updates)))
      ensures userSegments == old(userSegments)[uid := profiles[uid].segment]
      ensures order == if uid in old(profiles) then old(order) else old(order) + [uid]
    {
      var p := GetOrCreateUserProfile(uid, now);
      PutTwice(old(profiles), uid, p, Reassigned(ApplyUpdate(p, updates)));
      PutTwice(old(userSegments), uid, p.segment, Reassigned(ApplyUpdate(p, updates)).segment);
      StoreAndAssign(uid, ApplyUpdate(p, updates));
    }

    /** Replaces `uid`'s profile by `q`, which has the same tags and segment. */
    method StoreSameTags(uid: UserId, q: Profile)
      requires Valid() && uid in profiles
      requires TagsOf(q) == TagsOf(profiles[uid]) && q.segment == profiles[uid].segment
      modifies this
      ensures Valid()
      ensures profiles == old(profiles)[uid := q]
      ensures userSegments == old(userSegments) && order == old(order)
    {
      SegmentsPutSameTags(profiles, userSegments, uid, q);
      OrderPutExisting(profiles, order, uid, q);
      profiles := profiles[uid := q];
    }

    /** `add_product_analysis(user_id, product_analysis)`. */
    method AddProductAnalysis(uid: UserId, analysis: string, now: string)
      requires Valid()
      modifies this
      ensures Valid()
      ensures var p := Accessed(old(profiles), uid, now);
        profiles == old(profiles)[uid := p.(previousAnalyses := p.previousAnalyses + [AnalysisRecord(now, analysis)])]
      ensures userSegments == old(userSegments)[uid := profiles[uid].segment]
      ensures order == if uid in old(profiles) then old(order) else old(order) + [uid]
    {
      var p := GetOrCreateUserProfile(uid, now);
      var q := p.(previousAnalyses := p.previousAnalyses + [AnalysisRecord(now, analysis)]);
      PutTwice(old(profiles), uid, p, q);
      StoreSameTags(uid, q);
    }

    /** `add_successful_recommendation(user_id, recommendation)`; the list is
      always present, so the guard that creates it never fires. */
    method AddSuccessfulRecommendation(uid: UserId, recommendation: string, now: string)
      requires Valid()
      modifies this
      ensures Valid()
      ensures var p := Accessed(old(profiles), uid, now);
        profiles == old(profiles)[uid := p.(successfulRecommendations := p.successfulRecommendations + [RecDict(recommendation, now)])]
      ensures userSegments == old(userSegments)[uid := profiles[uid].segment]
      ensures order == if uid in old(profiles) then old(order) else old(order) + [uid]
    {
      var p := GetOrCreateUserProfile(uid, now);
      var q := p.(successfulRecommendations := p.successfulRecommendations + [RecDict(recommendation, now)]);
      PutTwice(old(profiles), uid, p, q);
      StoreSameTags(uid, q);
    }

    /** `get_similar_users(user_id, max_users)`: the collecting loop over the
      table, then the stable sort and the cut. */
    method GetSimilarUsers(uid: UserId, maxUsers: int) returns (r: seq<Peer>)
      requires Valid()
      ensures r == SimilarUsers(profiles, order, uid, maxUsers)
    {
      if uid !in profiles {
        return [];
      }
      var current := profiles[uid];
      var similar: seq<Peer> := [];
      var i := 0;
      while i < |order|
        invariant 0 <= i <= |order|
        invariant similar == Peers(profiles, order[..i], uid, current)
      {
        var other := order[i];
        assert order[..i + 1][..i] == order[..i];
        if other != uid && profiles[other].segment == current.segment {
          similar := similar + [PeerOf(other, current, profiles[other])];
        }
        i := i + 1;
      }
      assert order[..i] == order;
      r := PyTake(SortDesc(similar, Score), maxUsers);
    }

    /** The loop gathering the members' complaints. */
    method CollectComplaints(members: seq<UserId>) returns (complaints: seq<string>)
      requires forall k :: 0 <= k < |members| ==> members[k] in profiles
      ensures complaints == AllComplaints(profiles, members)
    {
      complaints := [];
      var i := 0;
      while i < |members|
        invariant 0 <= i <= |members|
        invariant complaints == AllComplaints(profiles, members[..i])
      {
        assert members[..i + 1][..i] == members[..i];
        complaints := complaints + profiles[members[i]].commonComplaints;
        i := i + 1;
      }
      assert members[..i] == members;
    }

    /** The loop gathering the members' successful recommendations. */
    method CollectRecommendations(members: seq<UserId>) returns (recs: seq<RecEntry>)
      requires forall k :: 0 <= k < |members| ==> members[k] in profiles
      ensures recs == AllRecommendations(profiles, members)
    {
      recs := [];
      var i := 0;
      while i < |members|
        invariant 0 <= i <= |members|
        invariant recs == AllRecommendations(profiles, members[..i])
      {
        assert members[..i + 1][..i] == members[..i];
        recs := recs + profiles[members[i]].successfulRecommendations;
        i := i + 1;
      }
      assert members[..i] == members;
    }

    /** `get_community_insights(segment, problem_type)`; the problem type is
      never read. */
    method GetCommunityInsights(segment: string, problemType: string) returns (r: Raises<Insights>)
      requires Valid()
      ensures r == CommunityInsights(profiles, order, segment)
    {
      var members := Members(profiles, order, segment);
      if members == [] {
        return Returns(NoCommunityData(NoDataMessage(segment)));
      }
      var complaints := CollectComplaints(members);
      var recs := CollectRecommendations(members);
      if !Hashable(recs) {
        return Raised(UnhashableDict);
      }
      r := Returns(Summary(|members|, MostCommon(complaints, 3), MostCommon(Texts(recs), 3), SegmentDescription(segment)));
    }
  }

  /** Once a member of a segment has a recommendation recorded through
      `add_successful_recommendation`, the insights for that segment fail. */
  lemma RecordedRecommendationBreaksInsights(profiles: map<UserId, Profile>, order: seq<UserId>, uid: UserId, recommendation: string, now: string)
    requires forall i :: 0 <= i < |order| ==> order[i] in profiles
    requires uid in order
    ensures var p := profiles[uid].(successfulRecommendations := profiles[uid].successfulRecommendations + [RecDict(recommendation, now)]);
      CommunityInsights(profiles[uid := p], order, p.segment).Raised?
  {
    var p := profiles[uid].(successfulRecommendations := profiles[uid].successfulRecommendations + [RecDict(recommendation, now)]);
    var ps := profiles[uid := p];
    var members := Members(ps, order, p.segment);
    assert uid in members;
    var k :| 0 <= k < |members| && members[k] == uid;
    RecommendationsOfMembers(ps, members);
    assert ps[members[k]].successfulRecommendations[|p.successfulRecommendations| - 1].RecDict?;
  }
}
