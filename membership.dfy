/**
  `join_study_group` in `routes.py`: a user joins a study group unless already a member
  or the group already has `max_members` members. The membership table is a sequence of
  (group, user) rows.
*/
module Membership {

  datatype MemberRow = MemberRow(groupId: nat, userId: nat)

  /** No user is listed twice in the same group. */
  predicate NoDuplicateMembers(rows: seq<MemberRow>) {
    forall i, j :: 0 <= i < j < |rows| ==> rows[i] != rows[j]
  }

  /** The number of members of group `g`. */
  function MemberCount(rows: seq<MemberRow>, g: nat): (n: nat)
    ensures n <= |rows|
  {
    if rows == [] then 0
    else MemberCount(rows[..|rows| - 1], g) + (if rows[|rows| - 1].groupId == g then 1 else 0)
  }

  datatype JoinOutcome = AlreadyMember | GroupFull | Joined

  /** The outcome of a join request, in the order the route checks: membership first,
      then capacity. */
  function JoinOutcomeOf(rows: seq<MemberRow>, g: nat, maxMembers: int, u: nat): (o: JoinOutcome)
    ensures o == AlreadyMember <==> MemberRow(g, u) in rows
    ensures o == Joined <==> MemberRow(g, u) !in rows && MemberCount(rows, g) < maxMembers
  {
    if MemberRow(g, u) in rows then AlreadyMember
    else if MemberCount(rows, g) >= maxMembers then GroupFull
    else Joined
  }

  /** The membership rows after the request. */
  function JoinRows(rows: seq<MemberRow>, g: nat, maxMembers: int, u: nat): seq<MemberRow> {
    if JoinOutcomeOf(rows, g, maxMembers, u) == Joined then rows + [MemberRow(g, u)] else rows
  }

  lemma CountAppend(rows: seq<MemberRow>, r: MemberRow, g: nat)
    ensures MemberCount(rows + [r], g) == MemberCount(rows, g) + (if r.groupId == g then 1 else 0)
  {
    assert (rows + [r])[..|rows|] == rows;
  }

  /** A join never creates a duplicate, never takes a group that was within its capacity
      past it, adds the user to exactly this group when it succeeds, and changes nothing
      otherwise. */
  lemma JoinInvariants(rows: seq<MemberRow>, g: nat, maxMembers: int, u: nat)
    requires NoDuplicateMembers(rows)
    ensures var r := JoinRows(rows, g, maxMembers, u);
            && NoDuplicateMembers(r)
            && (MemberCount(rows, g) <= maxMembers ==> MemberCount(r, g) <= maxMembers)
            && (forall h :: h != g ==> MemberCount(r, h) == MemberCount(rows, h))
            && (MemberRow(g, u) in r <==> JoinOutcomeOf(rows, g, maxMembers, u) != GroupFull)
            && (JoinOutcomeOf(rows, g, maxMembers, u) == Joined ==> MemberCount(r, g) == MemberCount(rows, g) + 1)
            && (JoinOutcomeOf(rows, g, maxMembers, u) != Joined ==> r == rows)
  {
    var r := JoinRows(rows, g, maxMembers, u);
    if JoinOutcomeOf(rows, g, maxMembers, u) == Joined {
      forall h ensures MemberCount(r, h) == MemberCount(rows, h) + (if h == g then 1 else 0) {
        CountAppend(rows, MemberRow(g, u), h);
      }
      assert r[|rows|] == MemberRow(g, u);
    }
  }

  /** The membership table. */
  class MemberTable {
    var rows: seq<MemberRow>

    constructor ()
      ensures rows == []
    {
      rows := [];
    }

    /** `join_study_group` by user `u` for group `g` with capacity `maxMembers`. */
    method Join(g: nat, maxMembers: int, u: nat) returns (outcome: JoinOutcome)
      modifies this
      ensures outcome == JoinOutcomeOf(old(rows), g, maxMembers, u)
      ensures rows == JoinRows(old(rows), g, maxMembers, u)
    {
      if MemberRow(g, u) in rows {
        return AlreadyMember;
      }
      var current := MemberCount(rows, g);
      if current >= maxMembers {
        return GroupFull;
      }
      rows := rows + [MemberRow(g, u)];
      outcome := Joined;
    }
  }
}
