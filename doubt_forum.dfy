/**
  The doubt forum service of `doubt_forum_service.py`: posts and answers, their vote
  counters, accepting an answer, a user's reputation, tag extraction and the candidate
  filter for similar posts. The two tables are sequences of rows held by a `DoubtForum`
  object whose methods reassign them.
*/
module DoubtForum {

  import opened Wrappers
  import opened Text
  import opened Ranking

  datatype Post = Post(
    id: nat,
    title: string,
    content: string,
    authorId: nat,
    category: Option<string>,
    tags: Option<string>,
    votes: int,
    isSolved: bool)

  /** An answer; AI answers have no author. */
  datatype Answer = Answer(
    id: nat,
    postId: nat,
    content: string,
    authorId: Option<nat>,
    votes: int,
    isAccepted: bool)

  // ---------------------------------------------------------------------------
  // Tag extraction

  const CommonTags: seq<string> := [
    "python", "java", "javascript", "cpp", "arrays", "linkedlist",
    "trees", "graphs", "dp", "recursion", "sorting", "searching",
    "sql", "react", "nodejs", "algorithms", "leetcode", "interview"]

  /** The keyword alternatives of the three `\b(...)\b` code patterns. */
  const CodePatterns: seq<seq<string>> := [
    ["def", "function", "class", "public", "private", "void", "int", "string", "bool"],
    ["if", "else", "for", "while", "switch", "case", "return"],
    ["array", "list", "dict", "map", "set", "queue", "stack"]]

  /** A regular-expression word boundary before position `p` of `s`. */
  predicate BoundaryBefore(s: string, p: nat)
    requires p <= |s|
  {
    p == 0 || !IsWordChar(s[p - 1])
  }

  /** A word boundary after a keyword ending at `e` (all keywords end in a word character). */
  predicate BoundaryAfter(s: string, e: nat)
    requires e <= |s|
  {
    e == |s| || !IsWordChar(s[e])
  }

  /** The keyword `\b(k1|k2|...)\b` matches at `p`: the first alternative in order that occurs
      at `p` with a boundary on both sides. */
  function MatchAt(s: string, p: nat, kws: seq<string>): (r: Option<string>)
    requires p <= |s|
    ensures r.Some? ==> r.value in kws && OccursAt(s, r.value, p) && BoundaryBefore(s, p)
                        && BoundaryAfter(s, p + |r.value|)
    ensures r.None? <==> forall k :: k in kws ==> !(OccursAt(s, k, p) && BoundaryBefore(s, p) && BoundaryAfter(s, p + |k|))
  {
    if kws == [] then None
    else if OccursAt(s, kws[0], p) && BoundaryBefore(s, p) && BoundaryAfter(s, p + |kws[0]|) then Some(kws[0])
    else MatchAt(s, p, kws[1..])
  }

  /** `re.findall` of a keyword pattern from position `p`: every match, left to right,
      scanning on after the end of each match (an empty match moves on by one). */
  function FindAll(s: string, kws: seq<string>, p: nat): (r: seq<string>)
    requires p <= |s|
    ensures forall k :: k in r ==> k in kws
    decreases |s| - p
  {
    if p == |s| then []
    else match MatchAt(s, p, kws)
      case Some(k) => [k] + FindAll(s, kws, p + if |k| == 0 then 1 else |k|)
      case None => FindAll(s, kws, p + 1)
  }

  /** The common tags that occur as substrings of the lowered content, in list order. */
  function CommonFound(lowered: string, tags: seq<string>): (r: seq<string>)
    ensures forall t :: t in r <==> t in tags && Contains(lowered, t)
  {
    if tags == [] then []
    else CommonFound(lowered, tags[..|tags| - 1]) + (if Contains(lowered, tags[|tags| - 1]) then [tags[|tags| - 1]] else [])
  }

  /** The matches of the first patterns, one pattern after the other. */
  function PatternFound(lowered: string, patterns: seq<seq<string>>): (r: seq<string>)
    ensures forall k :: k in r ==> exists i :: 0 <= i < |patterns| && k in patterns[i]
  {
    if patterns == [] then []
    else
      var n := |patterns|;
      var r := PatternFound(lowered, patterns[..n - 1]) + FindAll(lowered, patterns[n - 1], 0);
      assert forall k :: k in r ==> exists i :: 0 <= i < n && k in patterns[i] by {
        forall k | k in r ensures exists i :: 0 <= i < n && k in patterns[i] {
          if k in PatternFound(lowered, patterns[..n - 1]) {
            var i :| 0 <= i < n - 1 && k in patterns[..n - 1][i];
            assert k in patterns[i];
          } else {
            assert k in patterns[n - 1];
          }
        }
      }
      r
  }

  /** The candidate tags, in the order they are found, duplicates included. */
  function Found(lowered: string, commonTags: seq<string>, patterns: seq<seq<string>>): seq<string> {
    CommonFound(lowered, commonTags) + PatternFound(lowered, patterns)
  }

  predicate Distinct(s: seq<string>) {
    forall i, j :: 0 <= i < j < |s| ==> s[i] != s[j]
  }

  /** The distinct elements of `s`, each at its first occurrence. */
  function Dedup(s: seq<string>): (r: seq<string>)
    ensures Distinct(r)
    ensures forall x :: x in r <==> x in s
  {
    if s == [] then []
    else
      var prefix := Dedup(s[..|s| - 1]);
      if s[|s| - 1] in prefix then prefix else prefix + [s[|s| - 1]]
  }

  /** The tags `_extract_tags_from_content` keeps: the distinct candidates, at most five. */
  function TagList(content: string, commonTags: seq<string>, patterns: seq<seq<string>>): seq<string> {
    Take(Dedup(Found(Lower(content), commonTags, patterns)), 5)
  }

  /** The kept tags are distinct and at most five; each is a listed tag the content
      mentions or a keyword of one of the patterns; and when fewer than five distinct
      candidates turn up, none is dropped. */
  lemma TagListProperties(content: string, commonTags: seq<string>, patterns: seq<seq<string>>)
    ensures var tags := TagList(content, commonTags, patterns);
            var found := Found(Lower(content), commonTags, patterns);
            && |tags| <= 5
            && Distinct(tags)
            && (forall t :: t in tags ==>
                  || (t in commonTags && Contains(Lower(content), t))
                  || exists i :: 0 <= i < |patterns| && t in patterns[i])
            && (|Dedup(found)| < 5 ==> forall t :: t in found ==> t in tags)
  {
    var found := Found(Lower(content), commonTags, patterns);
    var tags := TagList(content, commonTags, patterns);
    forall t | t in tags
      ensures (t in commonTags && Contains(Lower(content), t)) || exists i :: 0 <= i < |patterns| && t in patterns[i]
    {
      assert t in Dedup(found);
      assert t in found;
      if t !in CommonFound(Lower(content), commonTags) {
        assert t in PatternFound(Lower(content), patterns);
      }
    }
  }

  /** A listed tag the content mentions is always a candidate. */
  lemma MentionedTagIsCandidate(content: string, commonTags: seq<string>, patterns: seq<seq<string>>, t: string)
    requires t in commonTags && Contains(Lower(content), t)
    ensures t in Found(Lower(content), commonTags, patterns)
  {
    assert t in CommonFound(Lower(content), commonTags);
  }

  lemma PatternFoundStep(lowered: string, patterns: seq<seq<string>>, j: nat)
    requires j < |patterns|
    ensures PatternFound(lowered, patterns[..j + 1]) == PatternFound(lowered, patterns[..j]) + FindAll(lowered, patterns[j], 0)
  {
    assert patterns[..j + 1][..j] == patterns[..j];
  }

  /** The first loop of `_extract_tags_from_content`: the listed tags the lowered content
      contains, in list order. */
  method CollectMentioned(contentLower: string, commonTags: seq<string>) returns (found: seq<string>)
    ensures found == CommonFound(contentLower, commonTags)
  {
    found := [];
    var i := 0;
    while i < |commonTags|
      invariant 0 <= i <= |commonTags|
      invariant found == CommonFound(contentLower, commonTags[..i])
    {
      assert commonTags[..i + 1][..i] == commonTags[..i];
      if Contains(contentLower, commonTags[i]) {
        found := found + [commonTags[i]];
      }
      i := i + 1;
    }
    assert commonTags[..i] == commonTags;
  }

  /** The second loop: `found` extended by the matches of each pattern in turn. */
  method CollectMatches(contentLower: string, patterns: seq<seq<string>>, found: seq<string>)
    returns (all: seq<string>)
    ensures all == found + PatternFound(contentLower, patterns)
  {
    var matched: seq<string> := [];
    var j := 0;
    while j < |patterns|
      invariant 0 <= j <= |patterns|
      invariant matched == PatternFound(contentLower, patterns[..j])
    {
      PatternFoundStep(contentLower, patterns, j);
      matched := matched + FindAll(contentLower, patterns[j], 0);
      j := j + 1;
    }
    assert patterns[..j] == patterns;
    all := found + matched;
  }

  /** `_extract_tags_from_content` with the service's tag list and code patterns: the two
      collection loops, then deduplication, the first five and the `', '` join. */
  method ExtractTags(content: string, commonTags: seq<string>, patterns: seq<seq<string>>) returns (tags: string)
    ensures tags == Join(TagList(content, commonTags, patterns), ", ")
  {
    var contentLower := Lower(content);
    var found := CollectMentioned(contentLower, commonTags);
    found := CollectMatches(contentLower, patterns, found);
    var unique := Dedup(found);
    tags := Join(Take(unique, 5), ", ");
  }

  // ---------------------------------------------------------------------------
  // Votes

  /** The change a vote type makes: 'up' adds one, 'down' takes one away, any other type
      changes nothing. */
  function VoteDelta(voteType: string): (d: int)
    ensures d == 1 <==> voteType == "up"
    ensures d == -1 <==> voteType == "down"
    ensures d == 0 <==> voteType != "up" && voteType != "down"
  {
    if voteType == "up" then 1 else if voteType == "down" then -1 else 0
  }

  /** The first position holding `id`: how `query.get` picks the row with a primary key. */
  function FirstIndex(keys: seq<nat>, id: nat): (r: Option<nat>)
    ensures r.Some? ==> r.value < |keys| && keys[r.value] == id
                        && forall k :: 0 <= k < r.value ==> keys[k] != id
    ensures r.None? <==> forall k :: 0 <= k < |keys| ==> keys[k] != id
  {
    if keys == [] then None
    else if keys[0] == id then Some(0)
    else match FirstIndex(keys[1..], id)
      case Some(k) =>
        assert forall j :: 1 <= j < k + 1 ==> keys[j] == keys[1..][j - 1];
        Some(k + 1)
      case None =>
        assert forall j :: 1 <= j < |keys| ==> keys[j] == keys[1..][j - 1];
        None
  }

  function PostIds(posts: seq<Post>): (ids: seq<nat>)
    ensures |ids| == |posts| && forall k :: 0 <= k < |posts| ==> ids[k] == posts[k].id
  {
    seq(|posts|, k requires 0 <= k < |posts| => posts[k].id)
  }

  function AnswerIds(answers: seq<Answer>): (ids: seq<nat>)
    ensures |ids| == |answers| && forall k :: 0 <= k < |answers| ==> ids[k] == answers[k].id
  {
    seq(|answers|, k requires 0 <= k < |answers| => answers[k].id)
  }

  /** `ForumPost.query.get(id)`: the row with that primary key. */
  function FindPost(posts: seq<Post>, id: nat): (r: Option<nat>)
    ensures r.Some? ==> r.value < |posts| && posts[r.value].id == id
    ensures r.None? <==> forall k :: 0 <= k < |posts| ==> posts[k].id != id
  {
    FirstIndex(PostIds(posts), id)
  }

  /** `ForumAnswer.query.get(id)`. */
  function FindAnswer(answers: seq<Answer>, id: nat): (r: Option<nat>)
    ensures r.Some? ==> r.value < |answers| && answers[r.value].id == id
    ensures r.None? <==> forall k :: 0 <= k < |answers| ==> answers[k].id != id
  {
    FirstIndex(AnswerIds(answers), id)
  }

  /** The posts after adding `d` to the counter of the post with primary key `id`. */
  function VotePosts(posts: seq<Post>, id: nat, d: int): seq<Post> {
    match FindPost(posts, id)
    case None => posts
    case Some(i) => posts[i := posts[i].(votes := posts[i].votes + d)]
  }

  /** The answers after adding `d` to the counter of the answer with primary key `id`. */
  function VoteAnswers(answers: seq<Answer>, id: nat, d: int): seq<Answer> {
    match FindAnswer(answers, id)
    case None => answers
    case Some(i) => answers[i := answers[i].(votes := answers[i].votes + d)]
  }

  /** An up-vote followed by a down-vote leaves the posts as they were: a vote keeps
      every key, so the second lookup finds the same row. */
  lemma PostVoteRoundTrip(posts: seq<Post>, id: nat)
    ensures VotePosts(VotePosts(posts, id, VoteDelta("up")), id, VoteDelta("down")) == posts
  {
    var once := VotePosts(posts, id, 1);
    assert PostIds(once) == PostIds(posts);
  }

  /** An up-vote followed by a down-vote leaves the answers as they were. */
  lemma AnswerVoteRoundTrip(answers: seq<Answer>, id: nat)
    ensures VoteAnswers(VoteAnswers(answers, id, VoteDelta("up")), id, VoteDelta("down")) == answers
  {
    var once := VoteAnswers(answers, id, 1);
    assert AnswerIds(once) == AnswerIds(answers);
  }

  // ---------------------------------------------------------------------------
  // Accepting an answer

  /** The answers after answer `i` is accepted: every answer of the same post is unmarked,
      then answer `i` is marked. */
  function AcceptIn(answers: seq<Answer>, i: nat): (r: seq<Answer>)
    requires i < |answers|
    ensures |r| == |answers|
  {
    var unmarked := seq(|answers|, k requires 0 <= k < |answers| =>
                          if answers[k].postId == answers[i].postId then answers[k].(isAccepted := false) else answers[k]);
    unmarked[i := unmarked[i].(isAccepted := true)]
  }

  /** After accepting answer `i`, it is the one accepted answer of its post; answers of
      other posts, and every field other than the mark, are untouched. */
  lemma AcceptedIsUnique(answers: seq<Answer>, i: nat)
    requires i < |answers|
    ensures var r := AcceptIn(answers, i);
            && (forall k :: 0 <= k < |r| && r[k].postId == answers[i].postId ==> (r[k].isAccepted <==> k == i))
            && (forall k :: 0 <= k < |r| && answers[k].postId != answers[i].postId ==> r[k] == answers[k])
            && (forall k :: 0 <= k < |r| ==> r[k].(isAccepted := answers[k].isAccepted) == answers[k])
  {
  }

  /** Accepting the same answer twice is the same as accepting it once. */
  lemma AcceptIdempotent(answers: seq<Answer>, i: nat)
    requires i < |answers|
    ensures AcceptIn(AcceptIn(answers, i), i) == AcceptIn(answers, i)
  {
    var once := AcceptIn(answers, i);
    var twice := AcceptIn(once, i);
    AcceptedIsUnique(answers, i);
    AcceptedIsUnique(once, i);
    assert forall k :: 0 <= k < |once| ==> twice[k] == once[k];
  }

  /** Why `mark_answer_accepted` refuses, if it does. */
  datatype AcceptCheck = NoSuchAnswer | NoSuchPost | NotPostAuthor | Allowed(answer: nat, post: nat)

  function CheckAccept(posts: seq<Post>, answers: seq<Answer>, answerId: nat, postAuthorId: nat): (c: AcceptCheck)
    ensures c.Allowed? ==> c.answer < |answers| && answers[c.answer].id == answerId
                           && c.post < |posts| && posts[c.post].id == answers[c.answer].postId
                           && posts[c.post].authorId == postAuthorId
    ensures c == NoSuchAnswer <==> FindAnswer(answers, answerId).None?
    ensures FindAnswer(answers, answerId).Some?
            && FindPost(posts, answers[FindAnswer(answers, answerId).value].postId).Some?
            && posts[FindPost(posts, answers[FindAnswer(answers, answerId).value].postId).value].authorId == postAuthorId
            ==> c.Allowed?
  {
    match FindAnswer(answers, answerId)
    case None => NoSuchAnswer
    case Some(i) =>
      match FindPost(posts, answers[i].postId)
      case None => NoSuchPost
      case Some(j) => if posts[j].authorId != postAuthorId then NotPostAuthor else Allowed(i, j)
  }

  // ---------------------------------------------------------------------------
  // Reputation

  function PostCount(posts: seq<Post>, u: nat): nat {
    if posts == [] then 0
    else PostCount(posts[..|posts| - 1], u) + (if posts[|posts| - 1].authorId == u then 1 else 0)
  }

  function PostVotes(posts: seq<Post>, u: nat): int {
    if posts == [] then 0
    else PostVotes(posts[..|posts| - 1], u) + (if posts[|posts| - 1].authorId == u then posts[|posts| - 1].votes else 0)
  }

  function AnswerCount(answers: seq<Answer>, u: nat): nat {
    if answers == [] then 0
    else AnswerCount(answers[..|answers| - 1], u) + (if answers[|answers| - 1].authorId == Some(u) then 1 else 0)
  }

  function AnswerVotes(answers: seq<Answer>, u: nat): int {
    if answers == [] then 0
    else AnswerVotes(answers[..|answers| - 1], u) + (if answers[|answers| - 1].authorId == Some(u) then answers[|answers| - 1].votes else 0)
  }

  function AcceptedCount(answers: seq<Answer>, u: nat): nat {
    if answers == [] then 0
    else AcceptedCount(answers[..|answers| - 1], u)
         + (if answers[|answers| - 1].authorId == Some(u) && answers[|answers| - 1].isAccepted then 1 else 0)
  }

  /** The weighted activity score before clamping. */
  function RawReputation(posts: seq<Post>, answers: seq<Answer>, u: nat): int {
    PostCount(posts, u) * 2 + AnswerCount(answers, u) * 3 + PostVotes(posts, u) * 5
    + AnswerVotes(answers, u) * 5 + AcceptedCount(answers, u) * 15
  }

  /** `get_user_reputation`: 0 for an unknown user, otherwise the weighted score clamped at 0. */
  function Reputation(posts: seq<Post>, answers: seq<Answer>, u: nat, userExists: bool): (r: int)
    ensures r >= 0
    ensures userExists && RawReputation(posts, answers, u) >= 0 ==> r == RawReputation(posts, answers, u)
    ensures !userExists || RawReputation(posts, answers, u) <= 0 ==> r == 0
  {
    if !userExists then 0
    else
      var raw := RawReputation(posts, answers, u);
      if raw < 0 then 0 else raw
  }

  /** Changing one post's counter by `d` changes its author's vote sum by `d` and no one
      else's. */
  lemma {:induction false} PostVotesUpdate(posts: seq<Post>, i: nat, d: int, u: nat)
    requires i < |posts|
    ensures PostVotes(posts[i := posts[i].(votes := posts[i].votes + d)], u)
            == PostVotes(posts, u) + (if posts[i].authorId == u then d else 0)
    ensures PostCount(posts[i := posts[i].(votes := posts[i].votes + d)], u) == PostCount(posts, u)
  {
    var n := |posts|;
    var r := posts[i := posts[i].(votes := posts[i].votes + d)];
    assert r[..n - 1] == if i < n - 1 then posts[..n - 1][i := posts[i].(votes := posts[i].votes + d)] else posts[..n - 1];
    if i < n - 1 {
      PostVotesUpdate(posts[..n - 1], i, d, u);
    }
  }

  /** An up-vote on one of a user's posts raises the user's reputation by five whenever the
      score was already non-negative, and never lowers it. */
  lemma UpvoteRaisesReputation(posts: seq<Post>, answers: seq<Answer>, id: nat, u: nat, userExists: bool)
    requires FindPost(posts, id).Some? && posts[FindPost(posts, id).value].authorId == u
    ensures var after := Reputation(VotePosts(posts, id, VoteDelta("up")), answers, u, userExists);
            && after >= Reputation(posts, answers, u, userExists)
            && (userExists && RawReputation(posts, answers, u) >= 0 ==> after == Reputation(posts, answers, u, userExists) + 5)
  {
    PostVotesUpdate(posts, FindPost(posts, id).value, 1, u);
  }

  // ---------------------------------------------------------------------------
  // Similar posts

  /** `s.split(',')`-then-`strip()` on each piece, for the stored tags of a post; no tags
      give no pieces. */
  function TagPieces(tags: Option<string>): seq<string> {
    if Given(tags) then SplitStrip(tags.value) else []
  }

  function SplitStrip(s: string): (r: seq<string>)
    ensures |r| >= 1
    decreases |s|
  {
    var head := BeforeFirst(s, ',');
    if |head| == |s| then [Strip(s)] else [Strip(head)] + SplitStrip(s[|head| + 1..])
  }

  /** `ForumPost.tags.contains(piece)` for some piece: a NULL column matches nothing. */
  predicate SharesTag(candidate: Post, pieces: seq<string>) {
    candidate.tags.Some? && exists p :: p in pieces && Contains(candidate.tags.value, p)
  }

  /** The filter of `get_similar_posts` for post `p`: another post of the same category and,
      when `p` has tags, one containing one of them. */
  predicate SimilarTo(p: Post, candidate: Post) {
    candidate.id != p.id && candidate.category == p.category
    && (TagPieces(p.tags) == [] || SharesTag(candidate, TagPieces(p.tags)))
  }

  function Filter(posts: seq<Post>, p: Post): (r: seq<Post>)
    ensures forall c :: c in r <==> c in posts && SimilarTo(p, c)
  {
    if posts == [] then []
    else Filter(posts[..|posts| - 1], p) + (if SimilarTo(p, posts[|posts| - 1]) then [posts[|posts| - 1]] else [])
  }

  predicate MoreVotes(a: Post, b: Post) {
    a.votes > b.votes
  }

  lemma MoreVotesIsStrictWeakOrder()
    ensures StrictWeakOrder(MoreVotes)
  {
  }

  /** `get_similar_posts(post_id, limit)`: the matching posts, most voted first, at most `limit`. */
  function SimilarPosts(posts: seq<Post>, postId: nat, limit: nat): seq<Post> {
    match FindPost(posts, postId)
    case None => []
    case Some(i) => Take(Sort(Filter(posts, posts[i]), MoreVotes), limit)
  }

  /** Similar posts never include the post itself, share its category, share a tag when it
      has tags, number at most `limit`, and come most voted first. */
  lemma SimilarPostsSound(posts: seq<Post>, postId: nat, limit: nat)
    ensures var r := SimilarPosts(posts, postId, limit);
            && |r| <= limit
            && SortedBy(r, MoreVotes)
            && forall c :: c in r ==> c in posts && c.id != postId
                                      && c.category == posts[FindPost(posts, postId).value].category
                                      && SimilarTo(posts[FindPost(posts, postId).value], c)
  {
    match FindPost(posts, postId)
    case None =>
    case Some(i) =>
      var all := Filter(posts, posts[i]);
      var sorted := Sort(all, MoreVotes);
      MoreVotesIsStrictWeakOrder();
      SortSorted(all, MoreVotes);
      forall c | c in Take(sorted, limit) ensures c in all {
        assert c in multiset(sorted);
      }
  }

  // ---------------------------------------------------------------------------
  // The service over the two tables

  /** A new post as `create_post` builds it: the category defaults to 'Other', the tags are
      extracted from the content when none are supplied, and the counters start at zero. */
  function NewPost(id: nat, title: string, content: string, authorId: nat,
                   category: Option<string>, tags: Option<string>,
                   commonTags: seq<string>, patterns: seq<seq<string>>): (p: Post)
    ensures p.category.Some? && p.category.value != ""
    ensures p.category.value == "Other" <==> !Given(category) || category.value == "Other"
    ensures Given(tags) ==> p.tags == tags
    ensures !Given(tags) ==> p.tags == Some(Join(TagList(content, commonTags, patterns), ", "))
    ensures p.votes == 0 && !p.isSolved && p.authorId == authorId && p.id == id
  {
    Post(id, title, content, authorId,
         Some(if Given(category) then category.value else "Other"),
         Some(if Given(tags) then tags.value else Join(TagList(content, commonTags, patterns), ", ")),
         0, false)
  }

  class DoubtForumService {
    var posts: seq<Post>
    var answers: seq<Answer>
    const commonTags: seq<string>
    const codePatterns: seq<seq<string>>

    constructor ()
      ensures posts == [] && answers == []
      ensures commonTags == CommonTags && codePatterns == CodePatterns
    {
      posts := [];
      answers := [];
      commonTags := CommonTags;
      codePatterns := CodePatterns;
    }

    /** `create_post`: the new row takes the next key. */
    method CreatePost(title: string, content: string, authorId: nat, category: Option<string>, tags: Option<string>)
      returns (post: Post)
      modifies this
      ensures post == NewPost(|old(posts)| + 1, title, content, authorId, category, tags, commonTags, codePatterns)
      ensures posts == old(posts) + [post] && answers == old(answers)
    {
      var postTags: string;
      if Given(tags) {
        postTags := tags.value;
      } else {
        postTags := ExtractTags(content, commonTags, codePatterns);
      }
      var postCategory := if Given(category) then category.value else "Other";
      post := Post(|posts| + 1, title, content, authorId, Some(postCategory), Some(postTags), 0, false);
      assert post.tags == NewPost(|posts| + 1, title, content, authorId, category, tags, commonTags, codePatterns).tags;
      posts := posts + [post];
    }

    /** `vote_post`: false when the post does not exist. */
    method VotePost(postId: nat, userId: nat, voteType: string) returns (ok: bool)
      modifies this
      ensures ok <==> FindPost(old(posts), postId).Some?
      ensures posts == VotePosts(old(posts), postId, VoteDelta(voteType)) && answers == old(answers)
    {
      var found := FindPost(posts, postId);
      if found.None? {
        return false;
      }
      var i := found.value;
      if voteType == "up" {
        posts := posts[i := posts[i].(votes := posts[i].votes + 1)];
      } else if voteType == "down" {
        posts := posts[i := posts[i].(votes := posts[i].votes - 1)];
      }
      ok := true;
    }

    /** `vote_answer`: false when the answer does not exist. */
    method VoteAnswer(answerId: nat, userId: nat, voteType: string) returns (ok: bool)
      modifies this
      ensures ok <==> FindAnswer(old(answers), answerId).Some?
      ensures answers == VoteAnswers(old(answers), answerId, VoteDelta(voteType)) && posts == old(posts)
    {
      var found := FindAnswer(answers, answerId);
      if found.None? {
        return false;
      }
      var i := found.value;
      if voteType == "up" {
        answers := answers[i := answers[i].(votes := answers[i].votes + 1)];
      } else if voteType == "down" {
        answers := answers[i := answers[i].(votes := answers[i].votes - 1)];
      }
      ok := true;
    }

    /** `mark_answer_accepted`: only the author of the answer's post may accept it; the post
        is then solved and this answer is its only accepted one. */
    method MarkAnswerAccepted(answerId: nat, postAuthorId: nat) returns (ok: bool)
      modifies this
      ensures var c := CheckAccept(old(posts), old(answers), answerId, postAuthorId);
              && (ok <==> c.Allowed?)
              && (!c.Allowed? ==> posts == old(posts) && answers == old(answers))
              && (c.Allowed? ==> answers == AcceptIn(old(answers), c.answer)
                                 && posts == old(posts)[c.post := old(posts)[c.post].(isSolved := true)])
    {
      var a := FindAnswer(answers, answerId);
      if a.None? {
        return false;
      }
      var i := a.value;
      var p := FindPost(posts, answers[i].postId);
      if p.None? || posts[p.value].authorId != postAuthorId {
        return false;
      }
      var j := p.value;
      var postId := answers[i].postId;
      var current := answers;
      var unmarked := seq(|current|, k requires 0 <= k < |current| =>
                            if current[k].postId == postId then current[k].(isAccepted := false) else current[k]);
      answers := unmarked[i := unmarked[i].(isAccepted := true)];
      posts := posts[j := posts[j].(isSolved := true)];
      ok := true;
    }
  }
}
