/**
  The `PlatformStats` record of `models.py`: one user's solved-problem counters on one
  coding platform.
*/
module PlatformRecords {

  datatype PlatformStats = PlatformStats(
    userId: nat,
    platform: string,
    totalProblems: int,
    basicSolved: int,
    easySolved: int,
    mediumSolved: int,
    hardSolved: int,
    contestRating: int,
    streak: int)

  /** A stats row as created: every counter 0. */
  function NewPlatformStats(userId: nat, platform: string): (s: PlatformStats)
    ensures s.userId == userId && s.platform == platform
    ensures s.totalProblems == 0 && s.basicSolved == 0 && s.easySolved == 0 && s.mediumSolved == 0
    ensures s.hardSolved == 0 && s.contestRating == 0 && s.streak == 0
  {
    PlatformStats(userId, platform, 0, 0, 0, 0, 0, 0, 0)
  }

  /** The rows of one user, in stored order. */
  function StatsOf(stats: seq<PlatformStats>, userId: nat): (r: seq<PlatformStats>)
    ensures forall s :: s in r <==> s in stats && s.userId == userId
  {
    if stats == [] then []
    else (if stats[0].userId == userId then [stats[0]] else []) + StatsOf(stats[1..], userId)
  }
}
