/**
  Contest standings in `routes.py`: the participant aggregate (each problem counts
  with the best score submitted for it), the results ordering, the consecutive rank
  assignment, and the get-or-create of a participant row on entering a contest.

  The aggregate sits after a `return` in `submit_solution` and never runs there; it is
  modelled as the stand-alone recalculation it was written to be.
*/
module Leaderboard {

  import opened Wrappers
  import opened Ranking
  import opened ContestModels

  // ---------------------------------------------------------------------------
  // The per-problem best score

  /** One step of the scan: a problem's entry is replaced only by a strictly higher score. */
  function Improve(m: map<nat, int>, x: ContestSubmission): map<nat, int> {
    if x.problemId !in m || x.score > m[x.problemId] then m[x.problemId := x.score] else m
  }

  /** The `problem_scores` dict after scanning `subs` in order. */
  function BestMap(subs: seq<ContestSubmission>): map<nat, int> {
    if subs == [] then map[] else Improve(BestMap(subs[..|subs| - 1]), subs[|subs| - 1])
  }

  /** The dict's entries are exactly the submitted problems, each mapped to the best score
      submitted for it. */
  lemma {:induction false} BestMapSpec(subs: seq<ContestSubmission>)
    ensures var m := BestMap(subs);
            && (forall p :: p in m <==> exists x :: x in subs && x.problemId == p)
            && (forall x :: x in subs ==> x.problemId in m && x.score <= m[x.problemId])
            && (forall p :: p in m ==> exists x :: x in subs && x.problemId == p && x.score == m[p])
  {
    if subs != [] {
      var prefix := subs[..|subs| - 1];
      var x := subs[|subs| - 1];
      assert subs == prefix + [x];
      BestMapSpec(prefix);
      var m := BestMap(prefix);
      ImproveKeys(prefix, x, m);
      ImproveBound(prefix, x, m);
      ImproveAttained(prefix, x, m);
    }
  }

  lemma ImproveKeys(prefix: seq<ContestSubmission>, x: ContestSubmission, m: map<nat, int>)
    requires forall p :: p in m <==> exists y :: y in prefix && y.problemId == p
    ensures forall p :: p in Improve(m, x) <==> exists y :: y in prefix + [x] && y.problemId == p
  {
    forall p ensures p in Improve(m, x) <==> exists y :: y in prefix + [x] && y.problemId == p {
      if p in Improve(m, x) && p != x.problemId {
        var y :| y in prefix && y.problemId == p;
        assert y in prefix + [x];
      }
      if p == x.problemId {
        assert x in prefix + [x];
      }
    }
  }

  lemma ImproveBound(prefix: seq<ContestSubmission>, x: ContestSubmission, m: map<nat, int>)
    requires forall y :: y in prefix ==> y.problemId in m && y.score <= m[y.problemId]
    ensures forall y :: y in prefix + [x] ==> y.problemId in Improve(m, x) && y.score <= Improve(m, x)[y.problemId]
  {
    forall y | y in prefix + [x] ensures y.problemId in Improve(m, x) && y.score <= Improve(m, x)[y.problemId] {
      if y != x {
        assert y in prefix;
      }
    }
  }

  lemma ImproveAttained(prefix: seq<ContestSubmission>, x: ContestSubmission, m: map<nat, int>)
    requires forall p :: p in m ==> exists y :: y in prefix && y.problemId == p && y.score == m[p]
    ensures forall p :: p in Improve(m, x) ==> exists y :: y in prefix + [x] && y.problemId == p && y.score == Improve(m, x)[p]
  {
    var r := Improve(m, x);
    forall p | p in r ensures exists y :: y in prefix + [x] && y.problemId == p && y.score == r[p] {
      if p == x.problemId && r[p] == x.score {
        assert x in prefix + [x];
      } else {
        var y :| y in prefix && y.problemId == p && y.score == m[p];
        assert y in prefix + [x];
      }
    }
  }

  /** The dict's keys in insertion order: each problem at its first submission. */
  function KeyOrder(subs: seq<ContestSubmission>): (keys: seq<nat>)
    ensures Distinct(keys)
    ensures forall p :: p in keys <==> exists x :: x in subs && x.problemId == p
  {
    if subs == [] then []
    else
      var prefix := subs[..|subs| - 1];
      var x := subs[|subs| - 1];
      assert subs == prefix + [x];
      var k := KeyOrder(prefix);
      if x.problemId in k then k else k + [x.problemId]
  }

  predicate Distinct(keys: seq<nat>) {
    forall i, j :: 0 <= i < j < |keys| ==> keys[i] != keys[j]
  }

  /** What a problem's best score contributes: to `total_score` the score itself, to
      `problems_solved` one when it is positive. */
  datatype Measure = TotalScore | ProblemsSolved

  function Weight(measure: Measure, best: int): int {
    match measure
    case TotalScore => best
    case ProblemsSolved => if best > 0 then 1 else 0
  }

  /** The weight of the value at `k`; every key summed over is in the map. */
  function WeightAt(m: map<nat, int>, k: nat, measure: Measure): int {
    if k in m then Weight(measure, m[k]) else 0
  }

  /** The sum of the weights of the values of `m` at `keys`, in order. */
  function SumOver(keys: seq<nat>, m: map<nat, int>, measure: Measure): int {
    if keys == [] then 0
    else SumOver(keys[..|keys| - 1], m, measure) + WeightAt(m, keys[|keys| - 1], measure)
  }

  datatype Standing = Standing(totalScore: int, problemsSolved: int)

  /** The aggregate of one user's submissions in a contest. */
  function Aggregate(subs: seq<ContestSubmission>): Standing {
    var m := BestMap(subs);
    var keys := KeyOrder(subs);
    Standing(SumOver(keys, m, TotalScore), SumOver(keys, m, ProblemsSolved))
  }

  /** `keys` without its `j`-th element. */
  function DropAt(keys: seq<nat>, j: nat): (r: seq<nat>)
    requires j < |keys|
    ensures |r| == |keys| - 1
    ensures forall t :: 0 <= t < |r| ==> r[t] == if t < j then keys[t] else keys[t + 1]
  {
    keys[..j] + keys[j + 1..]
  }

  lemma DropAtMembers(keys: seq<nat>, j: nat)
    requires j < |keys| && Distinct(keys)
    ensures Distinct(DropAt(keys, j))
    ensures forall k :: k in DropAt(keys, j) <==> k in keys && k != keys[j]
  {
    var r := DropAt(keys, j);
    forall k | k in keys && k != keys[j] ensures k in r {
      var t :| 0 <= t < |keys| && keys[t] == k;
      if t < j { assert r[t] == k; } else { assert r[t - 1] == k; }
    }
  }

  /** Dropping the `j`-th key takes its weight out of the sum. */
  lemma {:induction false} SumOverRemove(keys: seq<nat>, j: nat, m: map<nat, int>, measure: Measure)
    requires j < |keys|
    ensures SumOver(keys, m, measure) == SumOver(DropAt(keys, j), m, measure) + WeightAt(m, keys[j], measure)
  {
    var n := |keys|;
    if j < n - 1 {
      DropAtInit(keys, j);
      SumOverRemove(keys[..n - 1], j, m, measure);
    } else {
      assert DropAt(keys, j) == keys[..n - 1];
    }
  }

  /** Dropping a key before the last commutes with dropping the last. */
  lemma DropAtInit(keys: seq<nat>, j: nat)
    requires j + 1 < |keys|
    ensures var rest := DropAt(keys, j);
            rest[..|rest| - 1] == DropAt(keys[..|keys| - 1], j) && rest[|rest| - 1] == keys[|keys| - 1]
  {
    var rest := DropAt(keys, j);
    assert rest[..|rest| - 1] == DropAt(keys[..|keys| - 1], j);
  }

  /** Two duplicate-free key sequences with the same members give the same sum. */
  lemma {:induction false} SumOverPermutation(a: seq<nat>, b: seq<nat>, m: map<nat, int>, measure: Measure)
    requires Distinct(a) && Distinct(b)
    requires forall k :: k in a <==> k in b
    ensures SumOver(a, m, measure) == SumOver(b, m, measure)
  {
    if a != [] {
      var n := |a|;
      var last := a[n - 1];
      assert last in b;
      var j :| 0 <= j < |b| && b[j] == last;
      DropAtMembers(a, n - 1);
      DropAtMembers(b, j);
      assert DropAt(a, n - 1) == a[..n - 1];
      SumOverRemove(b, j, m, measure);
      SumOverPermutation(DropAt(a, n - 1), DropAt(b, j), m, measure);
    } else {
      NoMembersEmpty(b);
    }
  }

  lemma NoMembersEmpty(b: seq<nat>)
    ensures (forall k :: k !in b) ==> b == []
  {
    if b != [] {
      assert b[0] in b;
    }
  }

  /** More submissions never lose a problem or lower its best score. */
  lemma BestMapGrows(a: seq<ContestSubmission>, b: seq<ContestSubmission>)
    requires forall x :: x in a ==> x in b
    ensures forall p :: p in BestMap(a) ==> p in BestMap(b) && BestMap(a)[p] <= BestMap(b)[p]
  {
    BestMapSpec(a);
    BestMapSpec(b);
    var ma, mb := BestMap(a), BestMap(b);
    forall p | p in ma ensures p in mb && ma[p] <= mb[p] {
      var x :| x in a && x.problemId == p && x.score == ma[p];
      assert x in b;
    }
  }

  /** Submissions with the same members (in any order, any number of times each) have
      the same best-score map. */
  lemma SameMembersSameBest(a: seq<ContestSubmission>, b: seq<ContestSubmission>)
    requires forall x :: x in a <==> x in b
    ensures BestMap(a) == BestMap(b)
  {
    BestMapGrows(a, b);
    BestMapGrows(b, a);
    assert BestMap(a).Keys == BestMap(b).Keys;
  }

  /** The aggregate depends only on which submissions there are: it is independent of their
      order and of repeating any of them. */
  lemma AggregateSameMembers(a: seq<ContestSubmission>, b: seq<ContestSubmission>)
    requires forall x :: x in a <==> x in b
    ensures Aggregate(a) == Aggregate(b)
  {
    SameMembersSameBest(a, b);
    var m := BestMap(a);
    SumOverPermutation(KeyOrder(a), KeyOrder(b), m, TotalScore);
    SumOverPermutation(KeyOrder(a), KeyOrder(b), m, ProblemsSolved);
  }

  /** Order independence. */
  lemma AggregatePermutation(a: seq<ContestSubmission>, b: seq<ContestSubmission>)
    requires multiset(a) == multiset(b)
    ensures Aggregate(a) == Aggregate(b)
  {
    forall x ensures x in a <==> x in b {
      assert x in a <==> x in multiset(a);
      assert x in b <==> x in multiset(b);
    }
    AggregateSameMembers(a, b);
  }

  /** Idempotence: replaying the same submissions again changes nothing. */
  lemma AggregateReplay(subs: seq<ContestSubmission>)
    ensures Aggregate(subs + subs) == Aggregate(subs)
  {
    AggregateSameMembers(subs + subs, subs);
  }

  /** A further submission that does not beat the best score for its problem, on a problem
      already attempted, leaves the standing unchanged. */
  lemma NoImprovementNoChange(subs: seq<ContestSubmission>, x: ContestSubmission, y: ContestSubmission)
    requires y in subs && y.problemId == x.problemId && x.score <= y.score
    ensures Aggregate(subs + [x]) == Aggregate(subs)
  {
    BestMapSpec(subs);
    var m := BestMap(subs);
    assert (subs + [x])[..|subs + [x]| - 1] == subs;
    assert x.problemId in m && x.score <= m[x.problemId];
    assert x.problemId in KeyOrder(subs);
  }

  /** One more submission updates the dict and its key order as the loop body does. */
  lemma BestMapStep(subs: seq<ContestSubmission>, i: nat)
    requires i < |subs|
    ensures var m, x := BestMap(subs[..i]), subs[i];
            BestMap(subs[..i + 1]) == Improve(m, x)
    ensures var k, x := KeyOrder(subs[..i]), subs[i];
            KeyOrder(subs[..i + 1]) == if x.problemId in k then k else k + [x.problemId]
    ensures subs[i].problemId in KeyOrder(subs[..i]) <==> subs[i].problemId in BestMap(subs[..i])
  {
    assert subs[..i + 1][..i] == subs[..i];
    BestMapSpec(subs[..i]);
  }

  /** The recalculation the unreachable tail of `submit_solution` performs on the submitting
      user's participant row: `subs` are that user's submissions in the contest, in query
      order. Without a participant row nothing happens. */
  method RecalculateParticipant(participant: Option<ContestParticipant>, subs: seq<ContestSubmission>, now: int)
    returns (updated: Option<ContestParticipant>)
    ensures participant.None? ==> updated.None?
    ensures participant.Some? ==>
              var s := Aggregate(subs);
              updated == Some(participant.value.(lastSubmission := Some(now),
                                                 totalScore := s.totalScore,
                                                 problemsSolved := s.problemsSolved))
  {
    if participant.None? {
      return None;
    }
    var problemScores, keys := ScanSubmissions(subs);
    var total := SumOver(keys, problemScores, TotalScore);
    var solved := SumOver(keys, problemScores, ProblemsSolved);
    updated := Some(participant.value.(lastSubmission := Some(now), totalScore := total, problemsSolved := solved));
  }

  /** The loop building the `problem_scores` dict, with its keys in insertion order. */
  method ScanSubmissions(subs: seq<ContestSubmission>) returns (problemScores: map<nat, int>, keys: seq<nat>)
    ensures problemScores == BestMap(subs) && keys == KeyOrder(subs)
  {
    problemScores := map[];
    keys := [];
    var i := 0;
    while i < |subs|
      invariant 0 <= i <= |subs|
      invariant problemScores == BestMap(subs[..i]) && keys == KeyOrder(subs[..i])
    {
      var sub := subs[i];
      BestMapStep(subs, i);
      ghost var next := Improve(problemScores, sub);
      ghost var nextKeys := if sub.problemId in keys then keys else keys + [sub.problemId];
      if sub.problemId !in problemScores || sub.score > problemScores[sub.problemId] {
        if sub.problemId !in problemScores {
          keys := keys + [sub.problemId];
        }
        problemScores := problemScores[sub.problemId := sub.score];
      }
      assert problemScores == next && keys == nextKeys;
      i := i + 1;
    }
    assert subs[..i] == subs;
  }

  // ---------------------------------------------------------------------------
  // Results order and ranks

  /** `last_submission ASC` on PostgreSQL: earlier first, a missing time after every time. */
  predicate LastBefore(a: Option<int>, b: Option<int>) {
    match a
    case None => false
    case Some(x) => b.None? || (b.Some? && x < b.value)
  }

  /** `a` is listed strictly ahead of `b`: higher total, then more problems solved, then the
      earlier last submission. */
  predicate Ahead(a: ContestParticipant, b: ContestParticipant) {
    || a.totalScore > b.totalScore
    || (a.totalScore == b.totalScore && a.problemsSolved > b.problemsSolved)
    || (a.totalScore == b.totalScore && a.problemsSolved == b.problemsSolved && LastBefore(a.lastSubmission, b.lastSubmission))
  }

  /** The results order is a strict weak order, so sorting by it is well defined. */
  lemma AheadIsStrictWeakOrder()
    ensures StrictWeakOrder(Ahead)
  {
  }

  /** `participant.rank = rank` for `rank` counted from 1 down the ordered list. */
  method AssignRanks(ordered: seq<ContestParticipant>) returns (ranked: seq<ContestParticipant>)
    ensures |ranked| == |ordered|
    ensures forall i :: 0 <= i < |ordered| ==> ranked[i] == ordered[i].(rank := Some(i + 1))
  {
    ranked := [];
    var i := 0;
    while i < |ordered|
      invariant 0 <= i <= |ordered| && |ranked| == i
      invariant forall k :: 0 <= k < i ==> ranked[k] == ordered[k].(rank := Some(k + 1))
    {
      ranked := ranked + [ordered[i].(rank := Some(i + 1))];
      i := i + 1;
    }
  }

  /** The contest's participant rows, in stored order. */
  function OfContest(rows: seq<ContestParticipant>, contestId: nat): (r: seq<ContestParticipant>)
    ensures forall p :: p in r <==> p in rows && p.contestId == contestId
    ensures |r| <= |rows|
  {
    if rows == [] then []
    else (if rows[0].contestId == contestId then [rows[0]] else []) + OfContest(rows[1..], contestId)
  }

  /** `contest_results`: refused while the contest is live; otherwise the contest's
      participants in results order, ranked 1, 2, 3, … Rows that tie on all three keys are
      in no order the database promises; here they keep their stored order. */
  method ContestResults(contest: Contest, now: int, rows: seq<ContestParticipant>)
    returns (result: Result<seq<ContestParticipant>>)
    ensures IsLive(contest, now) <==> result == Err("Contest is still ongoing")
    ensures result.Ok? ==>
              var ordered := Sort(OfContest(rows, contest.id), Ahead);
              && |result.value| == |ordered|
              && forall i :: 0 <= i < |ordered| ==> result.value[i] == ordered[i].(rank := Some(i + 1))
  {
    if IsLive(contest, now) {
      return Err("Contest is still ongoing");
    }
    var ordered := Sort(OfContest(rows, contest.id), Ahead);
    var ranked := AssignRanks(ordered);
    result := Ok(ranked);
  }

  /** In the ranked list every participant of the contest appears once, ranks run 1..n
      with no gaps and no sharing (ties included), and a participant strictly ahead of
      another always has the smaller rank. */
  lemma RanksFollowOrder(rows: seq<ContestParticipant>, contestId: nat, ranked: seq<ContestParticipant>)
    requires var ordered := Sort(OfContest(rows, contestId), Ahead);
             |ranked| == |ordered| && forall i :: 0 <= i < |ordered| ==> ranked[i] == ordered[i].(rank := Some(i + 1))
    ensures var ordered := Sort(OfContest(rows, contestId), Ahead);
            multiset(ordered) == multiset(OfContest(rows, contestId))
    ensures forall i :: 0 <= i < |ranked| ==> ranked[i].rank == Some(i + 1)
    ensures forall i, j :: 0 <= i < |ranked| && 0 <= j < |ranked| && Ahead(ranked[i], ranked[j]) ==>
              ranked[i].rank.value < ranked[j].rank.value
  {
    var ordered := Sort(OfContest(rows, contestId), Ahead);
    AheadIsStrictWeakOrder();
    SortSorted(OfContest(rows, contestId), Ahead);
    forall i, j | 0 <= i < |ranked| && 0 <= j < |ranked| && Ahead(ranked[i], ranked[j])
      ensures ranked[i].rank.value < ranked[j].rank.value
    {
      assert ranked[i].rank.value == i + 1 && ranked[j].rank.value == j + 1;
      AheadIndex(ordered, Ahead, i, j);
    }
  }

  /** Results stay viewable before the contest starts: only a live contest is refused. */
  lemma ResultsOpenBeforeStart(contest: Contest, now: int)
    requires IsUpcoming(contest, now)
    ensures !IsLive(contest, now)
  {
  }

  // ---------------------------------------------------------------------------
  // Entering a contest

  /** The get-or-create in `contest_participate`: a participant row is added only when the
      user has none for the contest, so the (contest, user) pair stays unique and is
      present afterwards. */
  method GetOrCreateParticipant(rows: seq<ContestParticipant>, contestId: nat, userId: nat)
    returns (rows': seq<ContestParticipant>, created: bool)
    requires UniqueParticipants(rows)
    ensures UniqueParticipants(rows')
    ensures created <==> forall p :: p in rows ==> p.contestId != contestId || p.userId != userId
    ensures created ==> rows' == rows + [NewParticipant(contestId, userId)]
    ensures !created ==> rows' == rows
    ensures exists p :: p in rows' && p.contestId == contestId && p.userId == userId
  {
    var i := 0;
    while i < |rows|
      invariant 0 <= i <= |rows|
      invariant forall k :: 0 <= k < i ==> rows[k].contestId != contestId || rows[k].userId != userId
    {
      if rows[i].contestId == contestId && rows[i].userId == userId {
        assert rows[i] in rows;
        return rows, false;
      }
      i := i + 1;
    }
    rows' := rows + [NewParticipant(contestId, userId)];
    created := true;
    assert rows'[|rows|] in rows';
  }
}
