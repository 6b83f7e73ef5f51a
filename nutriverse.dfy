/** The simpler profile chatbot of the web app: it builds a small profile
    from what the user writes (an age, a six-month-old child, medical
    conditions), asks one clarifying question at a time while something is
    missing and the conversation is short, and otherwise answers through the
    language model. Histories are never cut. */
module NutriVerse {
  import opened Common
  import opened Text
  import opened Ranking

  type UserId = string

  /** One entry of `user_profiles`. Python's `None` is `Option.None`. */
  datatype ChatProfile = ChatProfile(
    age: Option<int>,
    gender: Option<string>,
    hasChildren: Option<bool>,
    childrenAges: seq<int>,
    medicalConditions: seq<string>,
    allergies: seq<string>,
    dietaryPreferences: seq<string>,
    knownInfo: set<string>,
    conversationCount: int)

  /** The record `get_user_profile` creates. */
  const NewChatProfile := ChatProfile(None, None, None, [], [], [], [], {}, 0)

  /** The profile of `uid`, or the new record when there is none. */
  function Fetched(profiles: map<UserId, ChatProfile>, uid: UserId): ChatProfile {
    if uid in profiles then profiles[uid] else NewChatProfile
  }

  /** The argument of `profile.update(updates)`: the keys it carries. */
  datatype ProfileUpdate = ProfileUpdate(
    age: Option<Option<int>>,
    gender: Option<Option<string>>,
    hasChildren: Option<Option<bool>>,
    childrenAges: Option<seq<int>>,
    medicalConditions: Option<seq<string>>,
    allergies: Option<seq<string>>,
    dietaryPreferences: Option<seq<string>>,
    knownInfo: Option<set<string>>,
    conversationCount: Option<int>)

  function Pick<T>(u: Option<T>, old_: T): T {
    if u.Some? then u.value else old_
  }

  /** `dict.update`: every key the update carries replaces the stored value. */
  function Merged(p: ChatProfile, u: ProfileUpdate): ChatProfile {
    ChatProfile(
      Pick(u.age, p.age), Pick(u.gender, p.gender), Pick(u.hasChildren, p.hasChildren),
      Pick(u.childrenAges, p.childrenAges), Pick(u.medicalConditions, p.medicalConditions),
      Pick(u.allergies, p.allergies), Pick(u.dietaryPreferences, p.dietaryPreferences),
      Pick(u.knownInfo, p.knownInfo), Pick(u.conversationCount, p.conversationCount))
  }

  /** The profile `update_profile` leaves: the merge, then one more
      conversation. An update that carries no key changes only the count. */
  function Updated(p: ChatProfile, u: ProfileUpdate): (q: ChatProfile)
    ensures u.conversationCount.None? ==> q.conversationCount == p.conversationCount + 1
    ensures u.conversationCount.Some? ==> q.conversationCount == u.conversationCount.value + 1
    ensures u.age.Some? ==> q.age == u.age.value
    ensures u.age.None? ==> q.age == p.age
    ensures u.hasChildren.Some? ==> q.hasChildren == u.hasChildren.value
    ensures u.hasChildren.None? ==> q.hasChildren == p.hasChildren
    ensures u.gender.Some? ==> q.gender == u.gender.value
    ensures u.gender.None? ==> q.gender == p.gender
    ensures u.childrenAges.Some? ==> q.childrenAges == u.childrenAges.value
    ensures u.childrenAges.None? ==> q.childrenAges == p.childrenAges
    ensures u.medicalConditions.Some? ==> q.medicalConditions == u.medicalConditions.value
    ensures u.medicalConditions.None? ==> q.medicalConditions == p.medicalConditions
    ensures u.allergies.Some? ==> q.allergies == u.allergies.value
    ensures u.allergies.None? ==> q.allergies == p.allergies
    ensures u.dietaryPreferences.Some? ==> q.dietaryPreferences == u.dietaryPreferences.value
    ensures u.dietaryPreferences.None? ==> q.dietaryPreferences == p.dietaryPreferences
    ensures u.knownInfo.Some? ==> q.knownInfo == u.knownInfo.value
    ensures u.knownInfo.None? ==> q.knownInfo == p.knownInfo
    ensures u == ProfileUpdate(None, None, None, None, None, None, None, None, None) ==>
      q == p.(conversationCount := p.conversationCount + 1)
  {
    var m := Merged(p, u);
    m.(conversationCount := m.conversationCount + 1)
  }

  // ------------------------------------------------------- profile extraction

  /** The alternatives of `(\d+)\s*(years?|year|yaş|yaşındayım)`. */
  const AgeUnits: seq<string> := ["years", "year", "yaş", "yaşındayım"]

  /** `not profile['age']`: no age, or an age of 0. */
  predicate AgeFalsy(age: Option<int>) {
    age.None? || age.value == 0
  }

  /** The age step: the first number with an age unit in the lowered
      message, taken only while the stored age is falsy. */
  function WithAge(p: ChatProfile, l: string): (q: ChatProfile)
    ensures q.(age := p.age) == p
    ensures !AgeFalsy(p.age) ==> q == p
    ensures (forall i :: 0 <= i ==> !NumberWithUnitAt(l, i, AgeUnits)) ==> q == p
    ensures AgeFalsy(p.age) && (exists i :: 0 <= i && NumberWithUnitAt(l, i, AgeUnits)) ==>
      exists i :: FirstNumberAt(l, AgeUnits, 0, i) && q.age == Some(DigitsValue(l[i..DigitRunEnd(l, i)]))
  {
    NumberBeforeIsFirstMatch(l, AgeUnits, 0);
    match NumberBefore(l, AgeUnits, 0)
    case Some(n) => if AgeFalsy(p.age) then p.(age := Some(n)) else p
    case None => p
  }

  const ChildMarkers: seq<string> := ["baby", "bebek", "child", "çocuk", "infant", "6-month", "6 month"]
  const SixMonths: seq<string> := ["6-month", "6 month"]

  /** The child step as written: inside the test for any child word, only the
      six-month phrases do anything. */
  function WithChild(p: ChatProfile, l: string): (q: ChatProfile)
    ensures ContainsAny(l, SixMonths) ==> q.hasChildren == Some(true) && 6 in q.childrenAges
    ensures ContainsAny(l, SixMonths) ==>
      q.childrenAges == if 6 in p.childrenAges then p.childrenAges else p.childrenAges + [6]
    ensures ContainsAny(l, SixMonths) ==> q.(hasChildren := p.hasChildren, childrenAges := p.childrenAges) == p
    ensures !ContainsAny(l, SixMonths) ==> q == p
  {
    if ContainsAny(l, ChildMarkers) && ContainsAny(l, SixMonths) then
      p.(hasChildren := Some(true), childrenAges := if 6 in p.childrenAges then p.childrenAges else p.childrenAges + [6])
    else
      assert !ContainsAny(l, SixMonths) by {
        if ContainsAny(l, SixMonths) { SixMonthsIsChildMarker(l); }
      }
      p
  }

  /** The outer test for a child word adds nothing: each six-month phrase is
      itself one of the child words. */
  lemma SixMonthsIsChildMarker(l: string)
    requires ContainsAny(l, SixMonths)
    ensures ContainsAny(l, ChildMarkers)
  {
    var k :| 0 <= k < |SixMonths| && Contains(l, SixMonths[k]);
    assert SixMonths[k] == ChildMarkers[5 + k];
  }

  /** `medical_keywords`, in dictionary order. */
  const MedicalKeywords: seq<(string, seq<string>)> := [
    ("diabetes", ["diabet", "şeker"]),
    ("allergy", ["allerg", "alerj"]),
    ("lactose", ["lactose", "laktoz"]),
    ("gluten", ["gluten", "çölyak"]),
    ("heart", ["heart", "kalp"])]

  /** The conditions after the loop over `table` has appended every
      condition one of whose keywords occurs and which is not yet listed. */
  function WithConditions(conds: seq<string>, table: seq<(string, seq<string>)>, l: string): (r: seq<string>)
    ensures conds <= r
  {
    if table == [] then conds
    else
      var r := WithConditions(conds, table[..|table| - 1], l);
      var (c, words) := table[|table| - 1];
      if ContainsAny(l, words) && c !in r then r + [c] else r
  }

  /** What the loop appends: each condition of the table whose keyword
      occurs, at most once, and nothing else; a list without repeats keeps
      none. */
  lemma {:induction false} ConditionsAdded(conds: seq<string>, table: seq<(string, seq<string>)>, l: string)
    ensures forall c :: c in WithConditions(conds, table, l) <==>
      c in conds || exists k :: 0 <= k < |table| && table[k].0 == c && ContainsAny(l, table[k].1)
    ensures NoDuplicates(conds) ==> NoDuplicates(WithConditions(conds, table, l))
  {
    if table != [] {
      var init := table[..|table| - 1];
      ConditionsAdded(conds, init, l);
      var r := WithConditions(conds, init, l);
      var (c, words) := table[|table| - 1];
      forall x ensures x in WithConditions(conds, table, l) <==>
        x in conds || exists k :: 0 <= k < |table| && table[k].0 == x && ContainsAny(l, table[k].1)
      {
        if exists k :: 0 <= k < |init| && init[k].0 == x && ContainsAny(l, init[k].1) {
          var k :| 0 <= k < |init| && init[k].0 == x && ContainsAny(l, init[k].1);
          assert table[k] == init[k];
        }
        if exists k :: 0 <= k < |table| && table[k].0 == x && ContainsAny(l, table[k].1) {
          var k :| 0 <= k < |table| && table[k].0 == x && ContainsAny(l, table[k].1);
          if k < |init| { assert table[k] == init[k]; }
        }
      }
    }
  }

  /** The table entry at `k` names `c` and one of its keywords occurs. */
  predicate Hits(table: seq<(string, seq<string>)>, k: int, c: string, l: string) {
    0 <= k < |table| && table[k].0 == c && ContainsAny(l, table[k].1)
  }

  /** Some entry of the table names `c` and one of its keywords occurs. */
  predicate Hit(table: seq<(string, seq<string>)>, c: string, l: string) {
    exists k :: 0 <= k < |table| && Hits(table, k, c, l)
  }

  /** The first entry of the table that names `c` and whose keyword occurs. */
  function FirstHit(table: seq<(string, seq<string>)>, c: string, l: string): (k: nat)
    requires Hit(table, c, l)
    ensures Hits(table, k, c, l) && forall j :: 0 <= j < k ==> !Hits(table, j, c, l)
  {
    if Hits(table, 0, c, l) then 0
    else
      HitsTail(table, c, l);
      var k := FirstHit(table[1..], c, l);
      assert Hits(table, k + 1, c, l);
      forall j | 0 < j <= k ensures !Hits(table, j, c, l) {
        assert !Hits(table[1..], j - 1, c, l);
      }
      k + 1
  }

  /** Without a hit at the head, the hit is in the tail. */
  lemma HitsTail(table: seq<(string, seq<string>)>, c: string, l: string)
    requires Hit(table, c, l) && !Hits(table, 0, c, l)
    ensures Hit(table[1..], c, l)
  {
    var k :| 0 <= k < |table| && Hits(table, k, c, l);
    assert 0 < k;
    assert table[1..][k - 1] == table[k];
    assert Hits(table[1..], k - 1, c, l);
  }

  /** One more entry of the table: its condition is appended when one of its
      keywords occurs and it is not yet listed. */
  lemma ConditionsStep(conds: seq<string>, table: seq<(string, seq<string>)>, i: nat, l: string)
    requires i < |table|
    ensures var r := WithConditions(conds, table[..i], l);
      WithConditions(conds, table[..i + 1], l) ==
        if ContainsAny(l, table[i].1) && table[i].0 !in r then r + [table[i].0] else r
  {
    assert table[..i + 1][..i] == table[..i];
  }

  /** A hit inside a prefix is the same hit in the whole table. */
  lemma FirstHitPrefix(table: seq<(string, seq<string>)>, m: nat, c: string, l: string)
    requires m <= |table| && Hit(table[..m], c, l)
    ensures Hit(table, c, l) && FirstHit(table, c, l) == FirstHit(table[..m], c, l)
  {
    var b := FirstHit(table[..m], c, l);
    assert Hits(table, b, c, l);
    var a := FirstHit(table, c, l);
    if a < b { assert Hits(table[..m], a, c, l); }
  }

  /** `r` is `conds` followed by conditions not in `conds`, each hit in the
      table, in strictly increasing order of their first hit. */
  predicate AddedInTableOrder(r: seq<string>, conds: seq<string>, table: seq<(string, seq<string>)>, l: string) {
    && |conds| <= |r| && r[..|conds|] == conds
    && (forall i :: |conds| <= i < |r| ==> r[i] !in conds && Hit(table, r[i], l))
    && (forall i, j :: |conds| <= i < j < |r| ==> FirstHit(table, r[i], l) < FirstHit(table, r[j], l))
  }

  /** The order of what the loop appends: after the given list come the
      conditions no entry of which was listed, each once, in the order of
      their first occurring entry in the table. */
  lemma {:induction false} ConditionsInTableOrder(conds: seq<string>, table: seq<(string, seq<string>)>, l: string)
    ensures AddedInTableOrder(WithConditions(conds, table, l), conds, table, l)
  {
    var r := WithConditions(conds, table, l);
    if table != [] {
      var init := table[..|table| - 1];
      ConditionsInTableOrder(conds, init, l);
      var q := WithConditions(conds, init, l);
      var (c, words) := table[|table| - 1];
      assert init == table[..|init|];
      forall i | |conds| <= i < |q|
        ensures q[i] !in conds && Hit(table, q[i], l) && FirstHit(table, q[i], l) == FirstHit(init, q[i], l)
      {
        FirstHitPrefix(table, |init|, q[i], l);
      }
      if ContainsAny(l, words) && c !in q {
        assert r == q + [c];
        assert Hits(table, |init|, c, l);
        forall j | 0 <= j < |init| ensures !Hits(table, j, c, l) {
          if Hits(table, j, c, l) {
            assert Hits(init, j, c, l);
            ConditionsAdded(conds, init, l);
          }
        }
        assert FirstHit(table, c, l) == |init|;
        assert c !in conds by { assert q[..|conds|] == conds; }
        forall i | |conds| <= i < |r| ensures r[i] !in conds && Hit(table, r[i], l) {
          if i < |q| { assert r[i] == q[i]; } else { assert r[i] == c; }
        }
        forall i, j | |conds| <= i < j < |r|
          ensures FirstHit(table, r[i], l) < FirstHit(table, r[j], l)
        {
          if j == |q| { assert r[i] == q[i] && r[j] == c; }
          else { assert r[i] == q[i] && r[j] == q[j]; }
        }
        assert r[..|conds|] == q[..|conds|];
      } else {
        assert r == q;
        forall i, j | |conds| <= i < j < |r|
          ensures FirstHit(table, r[i], l) < FirstHit(table, r[j], l)
        {
        }
      }
    }
  }

  /** The table's conditions are distinct, so each keyword group adds its
      own condition. */
  lemma MedicalConditionsDistinct()
    ensures forall i, j :: 0 <= i < j < |MedicalKeywords| ==> MedicalKeywords[i].0 != MedicalKeywords[j].0
  {
  }

  /** The whole effect of `extract_profile_info` on the fetched profile. */
  function ProfileInfo(p: ChatProfile, l: string): ChatProfile {
    WithMedical(WithChild(WithAge(p, l), l), l)
  }

  /** The condition step: the loop over the table on the stored conditions. */
  function WithMedical(p: ChatProfile, l: string): ChatProfile {
    p.(medicalConditions := WithConditions(p.medicalConditions, MedicalKeywords, l))
  }

  // ------------------------------------------------------- missing information

  /** `get_missing_info`'s list for a profile. */
  function Missing(p: ChatProfile): (r: seq<string>)
    ensures "age" in r <==> p.age.None?
    ensures "has_children" in r <==> p.hasChildren.None? && p.conversationCount > 1
    ensures "children_ages" in r <==> p.childrenAges == [] && p.hasChildren == Some(true)
    ensures forall x :: x in r ==> x in MissingKeys
    ensures NoDuplicates(r)
    ensures p.age.None? ==> r[0] == "age"
  {
    (if p.age.None? then ["age"] else [])
    + (if p.hasChildren.None? && p.conversationCount > 1 then ["has_children"] else [])
    + (if p.childrenAges == [] && p.hasChildren == Some(true) then ["children_ages"] else [])
  }

  const MissingKeys: seq<string> := ["age", "has_children", "children_ages"]

  /** Whether children are known and whether their ages are missing exclude
      each other, so at most two items are ever missing. */
  lemma MissingAtMostTwo(p: ChatProfile)
    ensures !("has_children" in Missing(p) && "children_ages" in Missing(p))
    ensures |Missing(p)| <= 2
  {
  }

  /** The `questions` dictionary. */
  const Questions: seq<(string, string)> := [
    ("age", "To give you better advice, could you tell me your age?"),
    ("has_children", "Do you have children? This helps me provide age-appropriate advice."),
    ("children_ages", "How old are your children? Please specify in months for babies or years for older children."),
    ("medical_conditions", "Do you have any medical conditions or allergies I should know about?")]

  /** The value of the first item that has one in `table`. */
  function FirstAnswered<T>(items: seq<string>, table: seq<(string, T)>): (r: Option<T>)
    ensures r.None? <==> forall k :: 0 <= k < |items| ==> Lookup(table, items[k]).None?
    ensures r.Some? ==> exists k ::
      && 0 <= k < |items|
      && (forall j :: 0 <= j < k ==> Lookup(table, items[j]).None?)
      && Lookup(table, items[k]) == r
  {
    if items == [] then None
    else if Lookup(table, items[0]).Some? then Lookup(table, items[0])
    else
      var r := FirstAnswered(items[1..], table);
      assert forall j :: 1 <= j < |items| ==> items[j] == items[1..][j - 1];
      r
  }

  /** `ask_clarifying_question(missing_info)`: the question of the first item
      that has one, else `None`. */
  function AskClarifyingQuestion(missingInfo: seq<string>): (r: Option<string>)
    ensures r.None? <==> forall k :: 0 <= k < |missingInfo| ==> Lookup(Questions, missingInfo[k]).None?
    ensures r.Some? ==> exists k ::
      && 0 <= k < |missingInfo|
      && (forall j :: 0 <= j < k ==> Lookup(Questions, missingInfo[j]).None?)
      && Lookup(Questions, missingInfo[k]) == r
  {
    FirstAnswered(missingInfo, Questions)
  }

  /** Every item `get_missing_info` reports has a question. */
  lemma MissingHaveQuestions(p: ChatProfile)
    ensures forall x :: x in Missing(p) ==> Lookup(Questions, x).Some?
  {
    forall x | x in Missing(p) ensures Lookup(Questions, x).Some? {
      assert x in MissingKeys;
      assert MissingKeys[0] == Questions[0].0 && MissingKeys[1] == Questions[1].0 && MissingKeys[2] == Questions[2].0;
    }
  }

  /** The question `chat` asks, if it asks one: while something is missing
      and the history holds fewer than 10 turns, the one for the first
      missing item. */
  function Clarification(p: ChatProfile, turns: nat): (r: Option<string>)
    ensures r.Some? <==> Missing(p) != [] && turns < 10
    ensures r.Some? ==> r == Lookup(Questions, Missing(p)[0])
  {
    MissingHaveQuestions(p);
    if Missing(p) != [] && turns < 10 then AskClarifyingQuestion(Missing(p)[..1]) else None
  }

  /** An age question comes first: a profile without an age is asked for it. */
  lemma AgeAskedFirst(p: ChatProfile, turns: nat)
    requires p.age.None? && turns < 10
    ensures Clarification(p, turns) == Some(Questions[0].1)
  {
    assert Missing(p)[0] == "age";
  }

  // ------------------------------------------------------------------ history

  /** One entry of a history. */
  datatype Said = Said(role: string, content: string, timestamp: string)

  /** The lines `get_conversation_history` joins. */
  function Lines(h: seq<Said>): (r: seq<string>)
    ensures |r| == |h| && forall k :: 0 <= k < |h| ==> r[k] == h[k].role + ": " + h[k].content
  {
    if h == [] then [] else [h[0].role + ": " + h[0].content] + Lines(h[1..])
  }

  /** What `generate_personalized_response` returns for the model's outcome. */
  function Personalized(llm: LlmOutcome): string {
    match llm
    case Reply(text) => Strip(text)
    case LlmFailed(e) => "I apologize, but I'm having trouble responding right now. Please try again. Error: " + e
  }

  const NoHistory := "No previous conversation"

  /** No turn's line holds a newline. */
  predicate NoNewlines(h: seq<Said>) {
    forall k :: 0 <= k < |h| ==> '\n' !in h[k].role + ": " + h[k].content
  }

  /** The joined lines of the last turns split back into those lines. */
  lemma LinesRoundTrip(h: seq<Said>, n: int)
    requires PyLast(h, n) != [] && NoNewlines(h)
    ensures Split(Join(Lines(PyLast(h, n)), "\n"), '\n') == Lines(PyLast(h, n))
  {
    var last := PyLast(h, n);
    var d := PyIndex(-n, |h|);
    assert forall k :: 0 <= k < |last| ==> last[k] == h[d + k];
    SplitJoin(Lines(last), '\n');
  }

  /** The histories with `turns` appended to the user's, a missing history
      counting as empty. */
  function Grown(hs: map<UserId, seq<Said>>, uid: UserId, turns: seq<Said>): (r: map<UserId, seq<Said>>)
    ensures uid in r && |r[uid]| >= |turns| && r[uid][|r[uid]| - |turns|..] == turns
    ensures forall u :: u in hs && u != uid ==> u in r && r[u] == hs[u]
  {
    hs[uid := (if uid in hs then hs[uid] else []) + turns]
  }

  /** Appending twice appends both. */
  lemma GrownTwice(hs: map<UserId, seq<Said>>, uid: UserId, a: seq<Said>, b: seq<Said>)
    ensures Grown(Grown(hs, uid, a), uid, b) == Grown(hs, uid, a + b)
  {
    var before := if uid in hs then hs[uid] else [];
    assert (before + a) + b == before + (a + b);
  }

  class EnhancedChatbot {
    /** `user_profiles`. */
    var profiles: map<UserId, ChatProfile>
    /** `conversation_histories`. */
    var histories: map<UserId, seq<Said>>

    constructor ()
      ensures profiles == map[] && histories == map[]
    {
      profiles := map[];
      histories := map[];
    }

    /** `get_user_profile(user_id)`: creates the new record on first access;
        afterwards returns the stored record and changes nothing. */
    method GetUserProfile(uid: UserId) returns (p: ChatProfile)
      modifies this
      ensures p == Fetched(old(profiles), uid)
      ensures profiles == old(profiles)[uid := p] && histories == old(histories)
      ensures uid in old(profiles) ==> profiles == old(profiles)
      ensures uid !in old(profiles) ==> p == NewChatProfile
    {
      if uid !in profiles {
        profiles := profiles[uid := NewChatProfile];
      }
      p := profiles[uid];
    }

    /** `update_profile(user_id, updates)`. */
    method UpdateProfile(uid: UserId, u: ProfileUpdate)
      modifies this
      ensures profiles == old(profiles)[uid := Updated(Fetched(old(profiles), uid), u)]
      ensures histories == old(histories)
    {
      var p := GetUserProfile(uid);
      var m := Merged(p, u);
      profiles := profiles[uid := m.(conversationCount := m.conversationCount + 1)];
    }

    /** The loop of `extract_profile_info` over the condition table. */
    static method AppendConditions(conds0: seq<string>, table: seq<(string, seq<string>)>, l: string)
      returns (conds: seq<string>)
      ensures conds == WithConditions(conds0, table, l)
    {
      conds := conds0;
      var i := 0;
      while i < |table|
        invariant 0 <= i <= |table|
        invariant conds == WithConditions(conds0, table[..i], l)
      {
        var (condition, keywords) := table[i];
        ConditionsStep(conds0, table, i, l);
        if ContainsAny(l, keywords) && condition !in conds {
          conds := conds + [condition];
        }
        i := i + 1;
      }
      assert table[..i] == table;
    }

    /** `extract_profile_info(message, user_id)`: the age step, the child
        step, then the loop over the condition table. */
    method ExtractProfileInfo(message: string, uid: UserId)
      modifies this
      ensures profiles == old(profiles)[uid := ProfileInfo(Fetched(old(profiles), uid), Lower(message))]
      ensures histories == old(histories)
    {
      var fetched := GetUserProfile(uid);
      var l := Lower(message);
      var p := WithChild(WithAge(fetched, l), l);
      var conds := AppendConditions(p.medicalConditions, MedicalKeywords, l);
      var q := p.(medicalConditions := conds);
      assert q == WithMedical(p, l);
      assert old(profiles)[uid := fetched][uid := q] == old(profiles)[uid := q];
      profiles := profiles[uid := q];
    }

    /** `get_missing_info(user_id)`, which also creates the profile. */
    method GetMissingInfo(uid: UserId) returns (missing: seq<string>)
      modifies this
      ensures missing == Missing(Fetched(old(profiles), uid))
      ensures profiles == old(profiles)[uid := Fetched(old(profiles), uid)] && histories == old(histories)
    {
      var p := GetUserProfile(uid);
      missing := Missing(p);
    }

    /** `get_conversation_history(user_id, max_messages)` (the default is
        5): the last turns as `role: content` lines joined by newlines, or
        the fixed text for a user with no history. Splitting the text at
        newlines gives the lines back when no turn holds a newline, so the
        text holds the turns `history[-max_messages:]` selects, oldest first. */
    function GetConversationHistory(uid: UserId, maxMessages: int): (r: string)
      reads this
      ensures uid !in histories ==> r == NoHistory
      ensures uid in histories ==> r == Join(Lines(PyLast(histories[uid], maxMessages)), "\n")
      ensures uid in histories && PyLast(histories[uid], maxMessages) != [] && NoNewlines(histories[uid]) ==>
        Split(r, '\n') == Lines(PyLast(histories[uid], maxMessages))
    {
      if uid !in histories then NoHistory
      else
        var h := histories[uid];
        assert PyLast(h, maxMessages) != [] && NoNewlines(h) ==>
          Split(Join(Lines(PyLast(h, maxMessages)), "\n"), '\n') == Lines(PyLast(h, maxMessages)) by {
          if PyLast(h, maxMessages) != [] && NoNewlines(h) {
            LinesRoundTrip(h, maxMessages);
          }
        }
        Join(Lines(PyLast(h, maxMessages)), "\n")
    }

    /** `add_to_history(user_id, role, content)`: appends, never cuts. */
    method AddToHistory(uid: UserId, role: string, content: string, now: string)
      modifies this
      ensures histories == Grown(old(histories), uid, [Said(role, content, now)])
      ensures profiles == old(profiles)
    {
      var h := if uid in histories then histories[uid] else [];
      histories := histories[uid := h + [Said(role, content, now)]];
    }

    /** The reply step of `chat`, once the user turn is stored: the
        clarifying question while one is due (the model is not consulted),
        else the personalized answer; the reply is appended to the history. */
    method Respond(uid: UserId, llm: LlmOutcome, now: string) returns (reply: string)
      requires uid in profiles && uid in histories
      modifies this
      ensures profiles == old(profiles)
      ensures histories == Grown(old(histories), uid, [Said("assistant", reply, now)])
      ensures var asked := Clarification(profiles[uid], |histories[uid]| - 1);
        reply == if asked.Some? then asked.value else Personalized(llm)
    {
      ghost var p := profiles[uid];
      var missing := GetMissingInfo(uid);
      assert profiles == old(profiles);
      if missing != [] && |histories[uid]| < 10 {
        var question := AskClarifyingQuestion(missing[..1]);
        assert question == Clarification(p, |histories[uid]|);
        if question.Some? {
          AddToHistory(uid, "assistant", question.value, now);
          return question.value;
        }
      }
      reply := Personalized(llm);
      AddToHistory(uid, "assistant", reply, now);
    }

    /** `chat` after the profile step: the user turn, then the reply. */
    method Converse(uid: UserId, message: string, llm: LlmOutcome, now: string) returns (reply: string)
      requires uid in profiles
      modifies this
      ensures profiles == old(profiles)
      ensures histories == Grown(old(histories), uid, [Said("user", message, now), Said("assistant", reply, now)])
      ensures var asked := Clarification(profiles[uid], |histories[uid]| - 1);
        reply == if asked.Some? then asked.value else Personalized(llm)
    {
      ghost var h0 := histories;
      AddToHistory(uid, "user", message, now);
      reply := Respond(uid, llm, now);
      GrownTwice(h0, uid, [Said("user", message, now)], [Said("assistant", reply, now)]);
      assert [Said("user", message, now)] + [Said("assistant", reply, now)] == [Said("user", message, now), Said("assistant", reply, now)];
    }

    /** `chat(user_id, message)`, with the model's outcome as `llm`: the
        profile step and the user turn, then either the clarifying question
        (the model is not consulted) or the personalized answer; either way
        the history grows by the user turn and the reply. */
    method Chat(uid: UserId, message: string, llm: LlmOutcome, now: string) returns (reply: string)
      modifies this
      ensures profiles == old(profiles)[uid := ProfileInfo(Fetched(old(profiles), uid), Lower(message))]
      ensures histories == Grown(old(histories), uid, [Said("user", message, now), Said("assistant", reply, now)])
      ensures var asked := Clarification(profiles[uid], |histories[uid]| - 1);
        reply == if asked.Some? then asked.value else Personalized(llm)
    {
      ExtractProfileInfo(message, uid);
      reply := Converse(uid, message, llm, now);
    }
  }
}
