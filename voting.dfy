/**
  The vote toggle of the forum routes `vote_post` and `vote_answer` in `routes.py`.
  Both handlers are the same state machine over one voted item (a post or an answer):
  its `votes` counter and its vote rows, one per user by the unique constraints on
  `ForumPostVote` and `ForumAnswerVote`.
*/
module Voting {

  import opened Wrappers

  datatype VoteType = Upvote | Downvote

  /** The `vote_type` path segment: only 'upvote' and 'downvote' are accepted. */
  function ParseVoteType(s: string): (t: Option<VoteType>)
    ensures t == Some(Upvote) <==> s == "upvote"
    ensures t == Some(Downvote) <==> s == "downvote"
    ensures t.None? <==> s != "upvote" && s != "downvote"
  {
    if s == "upvote" then Some(Upvote) else if s == "downvote" then Some(Downvote) else None
  }

  function Sign(t: VoteType): int {
    if t == Upvote then 1 else -1
  }

  datatype VoteRow = VoteRow(userId: nat, voteType: VoteType)

  /** The unique (item, user) constraint: at most one row per user. */
  predicate OneVotePerUser(rows: seq<VoteRow>) {
    forall i, j :: 0 <= i < j < |rows| ==> rows[i].userId != rows[j].userId
  }

  /** Upvotes minus downvotes over the rows. */
  function Tally(rows: seq<VoteRow>): int {
    if rows == [] then 0 else Tally(rows[..|rows| - 1]) + Sign(rows[|rows| - 1].voteType)
  }

  /** The position of the user's row, if any. */
  function FindVote(rows: seq<VoteRow>, userId: nat): (r: Option<nat>)
    ensures r.Some? ==> r.value < |rows| && rows[r.value].userId == userId
    ensures r.None? <==> forall i :: 0 <= i < |rows| ==> rows[i].userId != userId
  {
    if rows == [] then None
    else if rows[|rows| - 1].userId == userId then Some(|rows| - 1)
    else FindVote(rows[..|rows| - 1], userId)
  }

  /** The user's current vote on the item. */
  function VoteOf(rows: seq<VoteRow>, userId: nat): Option<VoteType> {
    match FindVote(rows, userId)
    case None => None
    case Some(i) => Some(rows[i].voteType)
  }

  /** `vote_change`: a new vote counts once, repeating a vote withdraws it, and switching
      sides moves the count by two. */
  function VoteChange(existing: Option<VoteType>, t: VoteType): (d: int)
    ensures existing.None? ==> d == Sign(t)
    ensures existing == Some(t) ==> d == -Sign(t)
    ensures existing.Some? && existing != Some(t) ==> d == 2 * Sign(t)
  {
    match existing
    case None => Sign(t)
    case Some(e) => if e == t then -Sign(t) else 2 * Sign(t)
  }

  /** The vote rows after the user votes `t`: the row is deleted when it already says `t`,
      rewritten when it says the other, and added when there is none. */
  function ApplyVote(rows: seq<VoteRow>, userId: nat, t: VoteType): seq<VoteRow> {
    match FindVote(rows, userId)
    case None => rows + [VoteRow(userId, t)]
    case Some(i) =>
      if rows[i].voteType == t then rows[..i] + rows[i + 1..] else rows[i := VoteRow(userId, t)]
  }

  lemma {:induction false} TallyUpdate(rows: seq<VoteRow>, i: nat, r: VoteRow)
    requires i < |rows|
    ensures Tally(rows[i := r]) == Tally(rows) - Sign(rows[i].voteType) + Sign(r.voteType)
  {
    var n := |rows|;
    if i < n - 1 {
      assert rows[i := r][..n - 1] == rows[..n - 1][i := r];
      TallyUpdate(rows[..n - 1], i, r);
    } else {
      assert rows[i := r][..n - 1] == rows[..n - 1];
    }
  }

  lemma {:induction false} TallyRemove(rows: seq<VoteRow>, i: nat)
    requires i < |rows|
    ensures Tally(rows[..i] + rows[i + 1..]) == Tally(rows) - Sign(rows[i].voteType)
  {
    var n := |rows|;
    var rest := rows[..i] + rows[i + 1..];
    if i < n - 1 {
      var init := rows[..n - 1];
      assert rest[..|rest| - 1] == init[..i] + init[i + 1..];
      assert rest[|rest| - 1] == rows[n - 1];
      TallyRemove(init, i);
    } else {
      assert rest == rows[..n - 1];
    }
  }

  /** The effect of one vote on the rows, case by case below. */
  ghost predicate VoteEffect(rows: seq<VoteRow>, userId: nat, t: VoteType) {
    var r := ApplyVote(rows, userId, t);
    && Tally(r) == Tally(rows) + VoteChange(VoteOf(rows, userId), t)
    && OneVotePerUser(r)
    && VoteOf(r, userId) == (if VoteOf(rows, userId) == Some(t) then None else Some(t))
    && forall u :: u != userId ==> VoteOf(r, u) == VoteOf(rows, u)
  }

  lemma NewVoteEffect(rows: seq<VoteRow>, userId: nat, t: VoteType)
    requires OneVotePerUser(rows) && FindVote(rows, userId).None?
    ensures VoteEffect(rows, userId, t)
  {
    var r := rows + [VoteRow(userId, t)];
    assert r[..|r| - 1] == rows;
    assert Tally(r) == Tally(rows) + Sign(t);
    assert FindVote(r, userId) == Some(|rows|);
    forall u | u != userId ensures VoteOf(r, u) == VoteOf(rows, u) {
      assert FindVote(r, u) == FindVote(rows, u);
    }
    forall i, j | 0 <= i < j < |r| ensures r[i].userId != r[j].userId {
      if j < |rows| {
        assert r[i] == rows[i] && r[j] == rows[j];
      } else {
        assert r[i] == rows[i];
      }
    }
  }

  /** The rows without the `i`-th: still one per user, and every remaining row is an
      original row other than the `i`-th. */
  lemma RemoveRow(rows: seq<VoteRow>, i: nat)
    requires OneVotePerUser(rows) && i < |rows|
    ensures var r := rows[..i] + rows[i + 1..];
            && |r| == |rows| - 1
            && (forall k :: 0 <= k < i ==> r[k] == rows[k])
            && (forall k :: i <= k < |r| ==> r[k] == rows[k + 1])
            && OneVotePerUser(r)
  {
  }

  lemma WithdrawEffect(rows: seq<VoteRow>, userId: nat, t: VoteType)
    requires OneVotePerUser(rows) && FindVote(rows, userId).Some?
    requires rows[FindVote(rows, userId).value].voteType == t
    ensures VoteEffect(rows, userId, t)
  {
    var i := FindVote(rows, userId).value;
    var r := ApplyVote(rows, userId, t);
    assert r == rows[..i] + rows[i + 1..];
    RemoveRow(rows, i);
    TallyRemove(rows, i);
    assert FindVote(r, userId).None? by {
      forall k | 0 <= k < |r| ensures r[k].userId != userId {
        if k < i { assert r[k] == rows[k]; } else { assert r[k] == rows[k + 1]; }
      }
    }
    forall u | u != userId ensures VoteOf(r, u) == VoteOf(rows, u) {
      WithdrawOther(rows, userId, i, u);
    }
  }

  lemma WithdrawOther(rows: seq<VoteRow>, userId: nat, i: nat, u: nat)
    requires OneVotePerUser(rows) && i < |rows| && rows[i].userId == userId && u != userId
    ensures VoteOf(rows[..i] + rows[i + 1..], u) == VoteOf(rows, u)
  {
    var r := rows[..i] + rows[i + 1..];
    RemoveRow(rows, i);
    match FindVote(rows, u)
    case None =>
      forall k | 0 <= k < |r| ensures r[k].userId != u {
        if k < i { assert r[k] == rows[k]; } else { assert r[k] == rows[k + 1]; }
      }
    case Some(k) =>
      var k' := if k < i then k else k - 1;
      assert r[k'] == rows[k];
      var j := FindVote(r, u).value;
      var j' := if j < i then j else j + 1;
      assert r[j] == rows[j'];
  }

  /** With one row per user, the user's row is the one `FindVote` finds. */
  lemma FindUnique(rows: seq<VoteRow>, userId: nat, i: nat)
    requires OneVotePerUser(rows) && i < |rows| && rows[i].userId == userId
    ensures FindVote(rows, userId) == Some(i)
  {
    var k := FindVote(rows, userId).value;
    assert rows[k].userId == rows[i].userId;
  }

  lemma SwitchEffect(rows: seq<VoteRow>, userId: nat, t: VoteType)
    requires OneVotePerUser(rows) && FindVote(rows, userId).Some?
    requires rows[FindVote(rows, userId).value].voteType != t
    ensures VoteEffect(rows, userId, t)
  {
    var i := FindVote(rows, userId).value;
    var r := ApplyVote(rows, userId, t);
    assert r == rows[i := VoteRow(userId, t)];
    TallyUpdate(rows, i, VoteRow(userId, t));
    assert OneVotePerUser(r);
    FindUnique(r, userId, i);
    forall u | u != userId ensures VoteOf(r, u) == VoteOf(rows, u) {
      match FindVote(rows, u)
      case None =>
        assert forall k :: 0 <= k < |r| ==> r[k].userId != u;
      case Some(k) =>
        assert r[k] == rows[k];
        FindUnique(r, u, k);
    }
  }

  /** A vote moves the tally by exactly `VoteChange`, keeps one row per user, leaves the
      user's vote withdrawn when it repeated the current one and set to `t` otherwise, and
      leaves every other user's vote alone. */
  lemma ApplyVoteEffect(rows: seq<VoteRow>, userId: nat, t: VoteType)
    requires OneVotePerUser(rows)
    ensures Tally(ApplyVote(rows, userId, t)) == Tally(rows) + VoteChange(VoteOf(rows, userId), t)
    ensures OneVotePerUser(ApplyVote(rows, userId, t))
    ensures VoteOf(ApplyVote(rows, userId, t), userId) == if VoteOf(rows, userId) == Some(t) then None else Some(t)
    ensures forall u :: u != userId ==> VoteOf(ApplyVote(rows, userId, t), u) == VoteOf(rows, u)
  {
    match FindVote(rows, userId)
    case None => NewVoteEffect(rows, userId, t);
    case Some(i) =>
      if rows[i].voteType == t {
        WithdrawEffect(rows, userId, t);
      } else {
        SwitchEffect(rows, userId, t);
      }
  }

  /** Voting the same way twice in a row restores the tally and the user's vote, unless
      the user's vote was the other way (then the first switches and the second withdraws). */
  lemma VoteTwiceRestores(rows: seq<VoteRow>, userId: nat, t: VoteType)
    requires OneVotePerUser(rows)
    requires VoteOf(rows, userId).None? || VoteOf(rows, userId) == Some(t)
    ensures var twice := ApplyVote(ApplyVote(rows, userId, t), userId, t);
            Tally(twice) == Tally(rows) && VoteOf(twice, userId) == VoteOf(rows, userId)
  {
    var once := ApplyVote(rows, userId, t);
    ApplyVoteEffect(rows, userId, t);
    ApplyVoteEffect(once, userId, t);
  }

  /** A post or an answer with its vote rows. `votes` is `None` for a NULL counter. */
  class VotedItem {
    var votes: Option<int>
    var rows: seq<VoteRow>

    /** The counter agrees with the rows and each user has at most one row. */
    ghost predicate Consistent()
      reads this
    {
      OneVotePerUser(rows) && Count(votes) == Tally(rows)
    }

    /** `votes or 0`. */
    static function Count(votes: Option<int>): int {
      if votes.Some? then votes.value else 0
    }

    /** A new item: no votes, counter 0. */
    constructor ()
      ensures votes == Some(0) && rows == []
      ensures Consistent()
    {
      votes := Some(0);
      rows := [];
    }

    /** `vote_post` / `vote_answer` by `userId`: the new count is returned. */
    method Vote(userId: nat, voteType: string) returns (r: Result<int>)
      modifies this
      ensures ParseVoteType(voteType).None? ==> r == Err("Invalid vote type") && unchanged(this)
      ensures ParseVoteType(voteType).Some? ==>
                var t := ParseVoteType(voteType).value;
                && rows == ApplyVote(old(rows), userId, t)
                && votes == Some(Count(old(votes)) + VoteChange(VoteOf(old(rows), userId), t))
                && r == Ok(votes.value)
      ensures old(Consistent()) ==> Consistent()
    {
      var parsed := ParseVoteType(voteType);
      if parsed.None? {
        return Err("Invalid vote type");
      }
      var t := parsed.value;
      var existing := FindVote(rows, userId);
      var change: int;
      if existing.Some? {
        var i := existing.value;
        if rows[i].voteType == t {
          rows := rows[..i] + rows[i + 1..];
          change := if t == Upvote then -1 else 1;
        } else {
          rows := rows[i := VoteRow(userId, t)];
          change := if t == Upvote then 2 else -2;
        }
      } else {
        rows := rows + [VoteRow(userId, t)];
        change := if t == Upvote then 1 else -1;
      }
      votes := Some(Count(votes) + change);
      if old(Consistent()) {
        ApplyVoteEffect(old(rows), userId, t);
      }
      r := Ok(votes.value);
    }
  }
}
