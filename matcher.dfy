/**
  `StudyGroupMatcher` of `study_group_matcher.py`: a user's skill level from their
  platform statistics, their interests from their profile text, the score of a study
  group for them, the groups recommended to them, a group's activity score and the
  study buddies suggested to them.

  Instants are microseconds; `now` is a parameter because the source reads the clock.
*/
module StudyGroupMatcher {

  import opened Wrappers
  import opened Text
  import opened Ranking
  import opened PlatformRecords
  import opened Membership

  const SkillLevels: seq<string> := ["Beginner", "Intermediate", "Advanced"]

  /** The matcher's topic list; interests are drawn from it. */
  datatype Topic =
    | DataStructures | Algorithms | SystemDesign | Database | WebDevelopment
    | MachineLearning | MobileDevelopment | DevOps | CompetitiveProgramming | InterviewPreparation

  const Topics: seq<Topic> := [
    DataStructures, Algorithms, SystemDesign, Database, WebDevelopment,
    MachineLearning, MobileDevelopment, DevOps, CompetitiveProgramming, InterviewPreparation]

  function TopicName(t: Topic): string {
    match t
    case DataStructures => "Data Structures"
    case Algorithms => "Algorithms"
    case SystemDesign => "System Design"
    case Database => "Database"
    case WebDevelopment => "Web Development"
    case MachineLearning => "Machine Learning"
    case MobileDevelopment => "Mobile Development"
    case DevOps => "DevOps"
    case CompetitiveProgramming => "Competitive Programming"
    case InterviewPreparation => "Interview Preparation"
  }

  /** `group.topic in user_interests`: the group's topic text names one of the interests. */
  predicate TopicOfInterest(topic: Option<string>, interests: set<Topic>) {
    topic.Some? && exists t :: t in interests && TopicName(t) == topic.value
  }

  const MicrosPerDay: int := 86_400_000_000

  /** `(now - created_at).days`: whole days, rounded down. */
  function DaysSince(now: int, createdAt: int): int {
    (now - createdAt) / MicrosPerDay
  }

  datatype StudyGroup = StudyGroup(
    id: nat,
    topic: Option<string>,
    skillLevel: Option<string>,
    maxMembers: int,
    createdAt: int,
    isActive: bool)

  datatype UserProfile = UserProfile(id: nat, learningGoals: Option<string>, targetCompanies: Option<string>)

  // ---------------------------------------------------------------------------
  // Skill level

  function SumTotals(stats: seq<PlatformStats>): int {
    if stats == [] then 0 else SumTotals(stats[..|stats| - 1]) + stats[|stats| - 1].totalProblems
  }

  function SumHard(stats: seq<PlatformStats>): int {
    if stats == [] then 0 else SumHard(stats[..|stats| - 1]) + stats[|stats| - 1].hardSolved
  }

  /** The sum and the number of the positive contest ratings. */
  function RatedSum(stats: seq<PlatformStats>): int {
    if stats == [] then 0
    else RatedSum(stats[..|stats| - 1]) + (if stats[|stats| - 1].contestRating > 0 then stats[|stats| - 1].contestRating else 0)
  }

  function RatedCount(stats: seq<PlatformStats>): (n: nat)
    ensures n == 0 <==> forall i :: 0 <= i < |stats| ==> stats[i].contestRating <= 0
  {
    if stats == [] then 0
    else RatedCount(stats[..|stats| - 1]) + (if stats[|stats| - 1].contestRating > 0 then 1 else 0)
  }

  /** The average positive rating is below `bound` (and there is one). The source divides in
      floating point; the comparison is made exact by cross-multiplying. */
  predicate AverageRatingBelow(stats: seq<PlatformStats>, bound: int) {
    RatedCount(stats) > 0 && RatedSum(stats) < bound * RatedCount(stats)
  }

  /** `_assess_user_skill_level` over the user's stats rows. */
  function AssessSkill(stats: seq<PlatformStats>): (level: string)
    ensures level in SkillLevels
    ensures stats == [] ==> level == "Beginner"
    ensures level == "Advanced" <==>
              stats != [] && SumTotals(stats) >= 200 && SumHard(stats) >= 20 && !AverageRatingBelow(stats, 1800)
  {
    if stats == [] then "Beginner"
    else if SumTotals(stats) < 50 || AverageRatingBelow(stats, 1200) then "Beginner"
    else if SumTotals(stats) < 200 || SumHard(stats) < 20 || AverageRatingBelow(stats, 1800) then "Intermediate"
    else "Advanced"
  }

  // ---------------------------------------------------------------------------
  // Interests

  /** The topics among `topics` that the lower-cased goals mention, lower-cased. */
  function MentionedTopics(goals: string, topics: seq<Topic>): (r: set<Topic>)
    ensures forall t :: t in r ==> t in topics
  {
    if topics == [] then {}
    else
      var last := topics[|topics| - 1];
      assert topics == topics[..|topics| - 1] + [last];
      MentionedTopics(goals, topics[..|topics| - 1]) + (if Contains(goals, Lower(TopicName(last))) then {last} else {})
  }

  /** Scanning one more topic adds it exactly when the goals mention it. */
  lemma MentionedStep(goals: string, topics: seq<Topic>, i: nat)
    requires i < |topics|
    ensures MentionedTopics(goals, topics[..i + 1])
            == MentionedTopics(goals, topics[..i]) + (if Contains(goals, Lower(TopicName(topics[i]))) then {topics[i]} else {})
  {
    assert topics[..i + 1][..i] == topics[..i];
  }

  /** The topics named (case-insensitively) in the learning goals. */
  function GoalTopics(goals: string): set<Topic>
  {
    MentionedTopics(Lower(goals), Topics)
  }

  const BigTech: seq<string> := ["google", "facebook", "amazon", "apple", "microsoft"]
  const ProductCompanies: seq<string> := ["netflix", "uber", "airbnb"]

  /** `any(company in companies for company in names)`. */
  predicate MentionsAny(companies: string, names: seq<string>) {
    exists i :: 0 <= i < |names| && Contains(companies, names[i])
  }

  /** The topics inferred from the target companies. */
  function CompanyTopics(companies: string): set<Topic> {
    var lowered := Lower(companies);
    (if MentionsAny(lowered, BigTech) then {Algorithms, SystemDesign, InterviewPreparation} else {})
    + (if MentionsAny(lowered, ProductCompanies) then {SystemDesign} else {})
  }

  /** The interests `_extract_user_interests` infers. */
  function InterestsOf(user: UserProfile): set<Topic> {
    var inferred := (if Given(user.learningGoals) then GoalTopics(user.learningGoals.value) else {})
                    + (if Given(user.targetCompanies) then CompanyTopics(user.targetCompanies.value) else {});
    if inferred == {} then {Algorithms, DataStructures} else inferred
  }

  /** Interests are never empty, and a big-tech target always brings algorithms, system
      design and interview preparation. */
  lemma InterestsWellFormed(user: UserProfile)
    ensures InterestsOf(user) != {}
    ensures Given(user.targetCompanies) && MentionsAny(Lower(user.targetCompanies.value), BigTech) ==>
              {Algorithms, SystemDesign, InterviewPreparation} <= InterestsOf(user)
  {
  }

  /** When the goals name no topic and the companies bring none, the default pair. */
  lemma DefaultInterests(user: UserProfile)
    requires !Given(user.learningGoals) || GoalTopics(user.learningGoals.value) == {}
    requires !Given(user.targetCompanies) || CompanyTopics(user.targetCompanies.value) == {}
    ensures InterestsOf(user) == {Algorithms, DataStructures}
  {
  }

  /** A goal text naming a topic (in any letter case) yields that topic. */
  lemma {:induction false} GoalNamesTopic(goals: string, topics: seq<Topic>, t: Topic)
    requires t in topics && Contains(goals, Lower(TopicName(t)))
    ensures t in MentionedTopics(goals, topics)
  {
    var n := |topics|;
    if topics[n - 1] != t {
      assert topics == topics[..n - 1] + [topics[n - 1]];
      GoalNamesTopic(goals, topics[..n - 1], t);
    }
  }

  /** The loop over the topic keywords (`self.topics`) in `_extract_user_interests`. */
  method ScanGoals(goals: string, topics: seq<Topic>) returns (interests: set<Topic>)
    ensures interests == MentionedTopics(goals, topics)
  {
    interests := {};
    var i := 0;
    while i < |topics|
      invariant 0 <= i <= |topics|
      invariant interests == MentionedTopics(goals, topics[..i])
    {
      var topic := topics[i];
      MentionedStep(goals, topics, i);
      if Contains(goals, Lower(TopicName(topic))) {
        interests := interests + {topic};
      }
      i := i + 1;
    }
    assert topics[..i] == topics;
  }

  /** The company step of `_extract_user_interests`: big-tech targets add algorithms,
      system design and interview preparation; product companies add system design. */
  method AddCompanyTopics(interests: set<Topic>, targetCompanies: string) returns (r: set<Topic>)
    ensures r == interests + CompanyTopics(targetCompanies)
  {
    r := interests;
    var companies := Lower(targetCompanies);
    if MentionsAny(companies, BigTech) {
      r := r + {Algorithms, SystemDesign, InterviewPreparation};
    }
    if MentionsAny(companies, ProductCompanies) {
      r := r + {SystemDesign};
    }
  }

  /** `_extract_user_interests`: the set grows topic by topic as the goals are scanned. */
  method ExtractInterests(user: UserProfile) returns (interests: set<Topic>)
    ensures interests == InterestsOf(user)
  {
    interests := {};
    if Given(user.learningGoals) {
      interests := ScanGoals(Lower(user.learningGoals.value), Topics);
    }
    assert interests == if Given(user.learningGoals) then GoalTopics(user.learningGoals.value) else {};
    if Given(user.targetCompanies) {
      interests := AddCompanyTopics(interests, user.targetCompanies.value);
    }
    if interests == {} {
      interests := {Algorithms, DataStructures};
    }
  }

  // ---------------------------------------------------------------------------
  // Match score

  /** `list.index` over the skill levels; a missing level (or NULL) is not found. */
  function LevelIndex(level: Option<string>): (r: Option<nat>)
    ensures r.Some? <==> level.Some? && level.value in SkillLevels
    ensures r.Some? ==> r.value < 3 && SkillLevels[r.value] == level.value
  {
    if level == Some("Beginner") then Some(0)
    else if level == Some("Intermediate") then Some(1)
    else if level == Some("Advanced") then Some(2)
    else None
  }

  function Abs(x: int): nat {
    if x < 0 then -x else x
  }

  /** The skill part: equal levels first (compared as values, so even an unknown level
      matches itself), then adjacent levels, where looking up a level outside the list raises. */
  function SkillPoints(groupLevel: Option<string>, userLevel: string): (r: Result<int>)
    ensures groupLevel == Some(userLevel) ==> r == Ok(50)
    ensures r.Err? <==> groupLevel != Some(userLevel) && (LevelIndex(groupLevel).None? || userLevel !in SkillLevels)
    ensures r.Ok? ==> r.value in {0, 25, 50}
  {
    if groupLevel == Some(userLevel) then Ok(50)
    else match (LevelIndex(groupLevel), LevelIndex(Some(userLevel)))
      case (Some(i), Some(j)) => Ok(if Abs(i - j) == 1 then 25 else 0)
      case _ => Err("is not in list")
  }

  /** The size part: a comfortable size earns most, any free seat something. */
  function SizePoints(members: int, maxMembers: int): (r: int)
    ensures r == 20 <==> 3 <= members <= maxMembers - 2
    ensures r == 10 <==> !(3 <= members <= maxMembers - 2) && members < maxMembers
    ensures r == 0 <==> members >= maxMembers
  {
    if 3 <= members <= maxMembers - 2 then 20 else if members < maxMembers then 10 else 0
  }

  /** The recency part. */
  function RecencyPoints(days: int): (r: int)
    ensures r == 15 <==> days < 7
    ensures r == 10 <==> 7 <= days < 30
    ensures r == 0 <==> days >= 30
  {
    if days < 7 then 15 else if days < 30 then 10 else 0
  }

  /** `_calculate_match_score` for a group with `members` members. */
  function MatchScore(group: StudyGroup, members: int, now: int, userLevel: string, interests: set<Topic>): Result<int> {
    match SkillPoints(group.skillLevel, userLevel)
    case Err(e) => Err(e)
    case Ok(skill) =>
      Ok(skill
         + (if TopicOfInterest(group.topic, interests) then 30 else 0)
         + SizePoints(members, group.maxMembers)
         + RecencyPoints(DaysSince(now, group.createdAt)))
  }

  /** The score lies in 0..115 whenever it is computed, fails exactly when the group's level
      is neither the user's nor a known one, and a full, stale group of an unrelated level
      whose topic is not an interest scores 0. */
  lemma MatchScoreRange(group: StudyGroup, members: int, now: int, userLevel: string, interests: set<Topic>)
    requires userLevel in SkillLevels
    ensures var r := MatchScore(group, members, now, userLevel, interests);
            && (r.Err? <==> group.skillLevel != Some(userLevel) && LevelIndex(group.skillLevel).None?)
            && (r.Ok? ==> 0 <= r.value <= 115)
            && (r.Ok? && SkillPoints(group.skillLevel, userLevel) == Ok(0) && members >= group.maxMembers
                && DaysSince(now, group.createdAt) >= 30 && !TopicOfInterest(group.topic, interests)
                ==> r.value == 0)
  {
  }

  // ---------------------------------------------------------------------------
  // Recommended groups

  datatype Scored = Scored(group: StudyGroup, score: int)

  predicate HigherScore(a: Scored, b: Scored) {
    a.score > b.score
  }

  lemma HigherScoreIsStrictWeakOrder()
    ensures StrictWeakOrder(HigherScore)
  {
  }

  /** The ids of the groups the user belongs to. */
  function GroupsOf(rows: seq<MemberRow>, userId: nat): set<nat> {
    set r | r in rows && r.userId == userId :: r.groupId
  }

  /** Active groups the user is not a member of, in stored order. */
  function Available(groups: seq<StudyGroup>, mine: set<nat>): (r: seq<StudyGroup>)
    ensures forall g :: g in r <==> g in groups && g.isActive && g.id !in mine
  {
    if groups == [] then []
    else Available(groups[..|groups| - 1], mine)
         + (var g := groups[|groups| - 1]; if g.isActive && g.id !in mine then [g] else [])
  }

  /** The scoring loop over the available groups: the positive scores in order, or the
      error of the first group whose score cannot be computed. */
  function ScoreGroups(groups: seq<StudyGroup>, rows: seq<MemberRow>, now: int, level: string, interests: set<Topic>)
    : (r: Result<seq<Scored>>)
    ensures r.Ok? ==> forall s :: s in r.value ==>
              && s.group in groups && s.score > 0
              && MatchScore(s.group, MemberCount(rows, s.group.id), now, level, interests) == Ok(s.score)
  {
    if groups == [] then Ok([])
    else match ScoreGroups(groups[..|groups| - 1], rows, now, level, interests)
      case Err(e) => Err(e)
      case Ok(prefix) =>
        var g := groups[|groups| - 1];
        match MatchScore(g, MemberCount(rows, g.id), now, level, interests)
        case Err(e) => Err(e)
        case Ok(score) => Ok(if score > 0 then prefix + [Scored(g, score)] else prefix)
  }

  function GroupsOfScored(s: seq<Scored>): (r: seq<StudyGroup>)
    ensures |r| == |s| && forall i :: 0 <= i < |s| ==> r[i] == s[i].group
  {
    if s == [] then [] else [s[0].group] + GroupsOfScored(s[1..])
  }

  /** The loop of `find_matching_groups` that scores every candidate group, keeping those
      above 0; an exception from one group ends it. */
  method ScoreAll(available: seq<StudyGroup>, rows: seq<MemberRow>, now: int, level: string, interests: set<Topic>)
    returns (r: Result<seq<Scored>>)
    ensures r == ScoreGroups(available, rows, now, level, interests)
  {
    var scoredGroups: seq<Scored> := [];
    var i := 0;
    while i < |available|
      invariant 0 <= i <= |available|
      invariant ScoreGroups(available[..i], rows, now, level, interests) == Ok(scoredGroups)
    {
      var group := available[i];
      assert available[..i + 1][..i] == available[..i];
      var score := MatchScore(group, MemberCount(rows, group.id), now, level, interests);
      if score.Err? {
        assert ScoreGroups(available[..i + 1], rows, now, level, interests) == Err(score.error);
        ScoreGroupsErrPersists(available, i + 1, rows, now, level, interests);
        return Err(score.error);
      }
      if score.value > 0 {
        scoredGroups := scoredGroups + [Scored(group, score.value)];
      }
      i := i + 1;
    }
    assert available[..i] == available;
    r := Ok(scoredGroups);
  }

  /** `find_matching_groups`: no user, no groups; otherwise the `limit` best-scoring groups.
      An error while scoring propagates. */
  method FindMatchingGroups(user: Option<UserProfile>, stats: seq<PlatformStats>, groups: seq<StudyGroup>,
                            rows: seq<MemberRow>, now: int, limit: nat)
    returns (result: Result<seq<StudyGroup>>, ranked: seq<Scored>)
    ensures user.None? ==> result == Ok([]) && ranked == []
    ensures user.Some? ==>
              var level := AssessSkill(StatsOf(stats, user.value.id));
              var scored := ScoreGroups(Available(groups, GroupsOf(rows, user.value.id)), rows, now, level, InterestsOf(user.value));
              && (scored.Err? ==> result == Err(scored.error))
              && (scored.Ok? ==> ranked == Take(Sort(scored.value, HigherScore), limit) && result == Ok(GroupsOfScored(ranked)))
  {
    ranked := [];
    if user.None? {
      return Ok([]), [];
    }
    var u := user.value;
    var level := AssessSkill(StatsOf(stats, u.id));
    var interests := ExtractInterests(u);
    var available := Available(groups, GroupsOf(rows, u.id));
    var scored := ScoreAll(available, rows, now, level, interests);
    if scored.Err? {
      return Err(scored.error), [];
    }
    var scoredGroups := scored.value;
    ranked := Take(Sort(scoredGroups, HigherScore), limit);
    result := Ok(GroupsOfScored(ranked));
  }

  /** Once a prefix fails to score, so does the whole list, with the same error. */
  lemma {:induction false} ScoreGroupsErrPersists(groups: seq<StudyGroup>, k: nat, rows: seq<MemberRow>, now: int,
                                                  level: string, interests: set<Topic>)
    requires k <= |groups| && ScoreGroups(groups[..k], rows, now, level, interests).Err?
    ensures ScoreGroups(groups, rows, now, level, interests) == ScoreGroups(groups[..k], rows, now, level, interests)
    decreases |groups| - k
  {
    if k < |groups| {
      assert groups[..k + 1][..k] == groups[..k];
      ScoreGroupsErrPersists(groups, k + 1, rows, now, level, interests);
    } else {
      assert groups[..k] == groups;
    }
  }

  /** The recommendations: at most `limit`, best score first, each an active group the user
      has not joined, with a positive score. */
  lemma RecommendationsSound(scored: seq<Scored>, groups: seq<StudyGroup>, rows: seq<MemberRow>, userId: nat,
                             now: int, level: string, interests: set<Topic>, limit: nat)
    requires ScoreGroups(Available(groups, GroupsOf(rows, userId)), rows, now, level, interests) == Ok(scored)
    ensures var ranked := Take(Sort(scored, HigherScore), limit);
            && |ranked| <= limit
            && SortedBy(ranked, HigherScore)
            && forall s :: s in ranked ==>
                 s.score > 0 && s.group in groups && s.group.isActive && s.group.id !in GroupsOf(rows, userId)
  {
    var sorted := Sort(scored, HigherScore);
    HigherScoreIsStrictWeakOrder();
    SortSorted(scored, HigherScore);
    var ranked := Take(sorted, limit);
    forall s | s in ranked ensures s in scored {
      assert s in multiset(sorted);
    }
  }

  /** The cut keeps the best: a scored group left out scores no higher than any kept one,
      and with at most `limit` candidates every one is kept. */
  lemma RecommendationsBest(scored: seq<Scored>, limit: nat)
    ensures var ranked := Take(Sort(scored, HigherScore), limit);
            && (|scored| <= limit ==> multiset(ranked) == multiset(scored))
            && forall x, y :: x in multiset(scored) - multiset(ranked) && y in ranked ==> x.score <= y.score
  {
    var ranked := Take(Sort(scored, HigherScore), limit);
    HigherScoreIsStrictWeakOrder();
    TakeSortedKeepsBest(scored, HigherScore, limit);
    forall x, y | x in multiset(scored) - multiset(ranked) && y in ranked ensures x.score <= y.score {
      assert !HigherScore(x, y);
    }
  }

  // ---------------------------------------------------------------------------
  // Activity score

  /** `get_group_activity_score`: 0 for a missing group, else ten points a member plus a
      recency bonus, capped at 100. */
  function ActivityScore(group: Option<StudyGroup>, members: nat, now: int): (r: int)
    ensures 0 <= r <= 100
    ensures group.None? ==> r == 0
    ensures group.Some? && members >= 10 ==> r == 100
    ensures group.Some? && DaysSince(now, group.value.createdAt) >= 30 ==> r == if members >= 10 then 100 else 10 * members
  {
    if group.None? then 0
    else
      var days := DaysSince(now, group.value.createdAt);
      var score := members * 10 + (if days < 7 then 50 else if days < 30 then 25 else 0);
      if score < 100 then score else 100
  }

  /** More members never lower the activity score. */
  lemma ActivityMonotone(group: Option<StudyGroup>, m1: nat, m2: nat, now: int)
    requires m1 <= m2
    ensures ActivityScore(group, m1, now) <= ActivityScore(group, m2, now)
  {
  }

  // ---------------------------------------------------------------------------
  // Study buddies

  datatype Buddy = Buddy(userId: nat, score: int, commonInterests: set<Topic>, skillLevel: string)

  /** The compatibility of two users. */
  function BuddyScore(sameSkill: bool, common: set<Topic>): int {
    (if sameSkill then 50 else 0) + 20 * |common|
  }

  /** A candidate clears the threshold exactly when the levels agree or they share at least
      three interests. */
  lemma BuddyThreshold(sameSkill: bool, common: set<Topic>)
    ensures BuddyScore(sameSkill, common) > 40 <==> sameSkill || |common| >= 3
  {
  }

  predicate HigherBuddy(a: Buddy, b: Buddy) {
    a.score > b.score
  }

  lemma HigherBuddyIsStrictWeakOrder()
    ensures StrictWeakOrder(HigherBuddy)
  {
  }

  /** The candidate's entry if it clears the threshold. */
  function BuddyEntry(level: string, interests: set<Topic>, candidate: UserProfile, stats: seq<PlatformStats>): (r: Option<Buddy>)
    ensures r.Some? ==> r.value.userId == candidate.id && r.value.score > 40
  {
    var skill := AssessSkill(StatsOf(stats, candidate.id));
    var common := interests * InterestsOf(candidate);
    var score := BuddyScore(skill == level, common);
    if score > 40 then Some(Buddy(candidate.id, score, common, skill)) else None
  }

  /** The entries of the candidates that clear the threshold, in candidate order. */
  function Buddies(level: string, interests: set<Topic>, candidates: seq<UserProfile>, stats: seq<PlatformStats>)
    : (r: seq<Buddy>)
    ensures forall b :: b in r ==> b.score > 40 && exists c :: c in candidates && c.id == b.userId
  {
    if candidates == [] then []
    else
      var prefix := Buddies(level, interests, candidates[..|candidates| - 1], stats);
      var c := candidates[|candidates| - 1];
      assert forall x :: x in candidates[..|candidates| - 1] ==> x in candidates;
      match BuddyEntry(level, interests, c, stats)
      case None => prefix
      case Some(b) => prefix + [b]
  }

  function AsList(o: Option<Buddy>): (r: seq<Buddy>)
    ensures |r| <= 1
  {
    match o
    case None => []
    case Some(b) => [b]
  }

  lemma BuddyEntryOf(level: string, interests: set<Topic>, candidate: UserProfile, stats: seq<PlatformStats>,
                     skill: string, theirs: set<Topic>, score: int)
    requires skill == AssessSkill(StatsOf(stats, candidate.id)) && theirs == InterestsOf(candidate)
    requires score == BuddyScore(skill == level, interests * theirs)
    ensures AsList(BuddyEntry(level, interests, candidate, stats))
            == if score > 40 then [Buddy(candidate.id, score, interests * theirs, skill)] else []
  {
  }

  lemma BuddiesStep(level: string, interests: set<Topic>, candidates: seq<UserProfile>, i: nat, stats: seq<PlatformStats>)
    requires i < |candidates|
    ensures Buddies(level, interests, candidates[..i + 1], stats)
            == Buddies(level, interests, candidates[..i], stats) + AsList(BuddyEntry(level, interests, candidates[i], stats))
  {
    assert candidates[..i + 1][..i] == candidates[..i];
  }

  /** The scoring loop of `find_study_buddy`: each candidate scoring over 40, in order. */
  method CollectBuddies(level: string, interests: set<Topic>, candidates: seq<UserProfile>, stats: seq<PlatformStats>)
    returns (potential: seq<Buddy>)
    ensures potential == Buddies(level, interests, candidates, stats)
  {
    potential := [];
    var i := 0;
    while i < |candidates|
      invariant 0 <= i <= |candidates|
      invariant potential == Buddies(level, interests, candidates[..i], stats)
    {
      var candidate := candidates[i];
      var candidateSkill := AssessSkill(StatsOf(stats, candidate.id));
      var candidateInterests := ExtractInterests(candidate);
      var common := interests * candidateInterests;
      var score := 0;
      if candidateSkill == level {
        score := score + 50;
      }
      score := score + |common| * 20;
      BuddyEntryOf(level, interests, candidate, stats, candidateSkill, candidateInterests, score);
      BuddiesStep(level, interests, candidates, i, stats);
      if score > 40 {
        potential := potential + [Buddy(candidate.id, score, common, candidateSkill)];
      }
      i := i + 1;
    }
    assert candidates[..i] == candidates;
  }

  /** `find_study_buddy`: every other user is a candidate; the five most compatible of those
      scoring over 40, best first. */
  method FindStudyBuddy(user: Option<UserProfile>, users: seq<UserProfile>, stats: seq<PlatformStats>)
    returns (buddies: seq<Buddy>)
    ensures user.None? ==> buddies == []
    ensures user.Some? ==>
              var u := user.value;
              var others := OtherUsers(users, u.id);
              buddies == Take(Sort(Buddies(AssessSkill(StatsOf(stats, u.id)), InterestsOf(u), others, stats), HigherBuddy), 5)
  {
    if user.None? {
      return [];
    }
    var u := user.value;
    var level := AssessSkill(StatsOf(stats, u.id));
    var interests := ExtractInterests(u);
    var candidates := OtherUsers(users, u.id);
    var potential := CollectBuddies(level, interests, candidates, stats);
    buddies := Take(Sort(potential, HigherBuddy), 5);
  }

  /** `User.id != user_id`, in stored order. */
  function OtherUsers(users: seq<UserProfile>, userId: nat): (r: seq<UserProfile>)
    ensures forall c :: c in r <==> c in users && c.id != userId
  {
    if users == [] then []
    else (if users[0].id != userId then [users[0]] else []) + OtherUsers(users[1..], userId)
  }

  /** The suggestions: at most five, best first, never the user themself, each scoring over 40. */
  lemma BuddiesSound(level: string, interests: set<Topic>, users: seq<UserProfile>, userId: nat, stats: seq<PlatformStats>)
    ensures var list := Take(Sort(Buddies(level, interests, OtherUsers(users, userId), stats), HigherBuddy), 5);
            && |list| <= 5
            && SortedBy(list, HigherBuddy)
            && forall b :: b in list ==> b.score > 40 && b.userId != userId
  {
    var all := Buddies(level, interests, OtherUsers(users, userId), stats);
    var sorted := Sort(all, HigherBuddy);
    HigherBuddyIsStrictWeakOrder();
    SortSorted(all, HigherBuddy);
    forall b | b in Take(sorted, 5) ensures b in all {
      assert b in multiset(sorted);
    }
  }

  /** The five kept are the best: a qualifying buddy left out scores no higher than any
      kept one, and with at most five qualifying buddies every one is kept. */
  lemma BuddiesBest(all: seq<Buddy>)
    ensures var list := Take(Sort(all, HigherBuddy), 5);
            && (|all| <= 5 ==> multiset(list) == multiset(all))
            && forall x, y :: x in multiset(all) - multiset(list) && y in list ==> x.score <= y.score
  {
    var list := Take(Sort(all, HigherBuddy), 5);
    HigherBuddyIsStrictWeakOrder();
    TakeSortedKeepsBest(all, HigherBuddy, 5);
    forall x, y | x in multiset(all) - multiset(list) && y in list ensures x.score <= y.score {
      assert !HigherBuddy(x, y);
    }
  }
}
