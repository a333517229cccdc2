/**
  The contest records of `models.py`: the contest clock (`is_live`, `is_upcoming`,
  `is_finished`, `get_end_time`), the column defaults of new problems, submissions
  and participants, and the uniqueness constraints on participants.

  Instants are integers counting microseconds, the resolution of Python's
  `datetime`; `now` is a parameter because the source reads the wall clock.
*/
module ContestModels {

  import opened Wrappers

  const MicrosPerSecond: int := 1_000_000
  const MicrosPerMinute: int := 60 * MicrosPerSecond

  datatype Contest = Contest(
    id: nat,
    title: string,
    startDate: int,
    durationMinutes: int,
    createdBy: nat,
    isActive: bool)

  /** `get_end_time`: `start_date + timedelta(minutes=duration_minutes)`. */
  function EndTime(c: Contest): int {
    c.startDate + c.durationMinutes * MicrosPerMinute
  }

  /** `is_live`: both ends of the window are inclusive. */
  predicate IsLive(c: Contest, now: int) {
    c.startDate <= now <= EndTime(c)
  }

  /** `is_upcoming`. */
  predicate IsUpcoming(c: Contest, now: int) {
    now < c.startDate
  }

  /** `is_finished`. */
  predicate IsFinished(c: Contest, now: int) {
    now > EndTime(c)
  }

  datatype Phase = Upcoming | Live | Finished

  /** The phase of a contest whose duration is not negative: every instant falls in
      exactly one of the three predicates, and the phase names it. */
  function PhaseAt(c: Contest, now: int): (p: Phase)
    requires c.durationMinutes >= 0
    ensures p == Upcoming <==> IsUpcoming(c, now)
    ensures p == Live <==> IsLive(c, now)
    ensures p == Finished <==> IsFinished(c, now)
  {
    if now < c.startDate then Upcoming
    else if now <= EndTime(c) then Live
    else Finished
  }

  /** With a negative duration the three predicates are no longer a partition: the contest
      is never live, and the instant just before its start is both upcoming and finished. */
  lemma NegativeDurationOverlap(c: Contest)
    requires c.durationMinutes < 0
    ensures forall now :: !IsLive(c, now)
    ensures IsUpcoming(c, c.startDate - 1) && IsFinished(c, c.startDate - 1)
  {
    assert EndTime(c) <= c.startDate - MicrosPerMinute;
  }

  /** A one-hour contest starting at `t`: live 59 minutes in, finished 61 minutes in,
      upcoming a minute before. */
  lemma OneHourContest(c: Contest, t: int)
    requires c.startDate == t && c.durationMinutes == 60
    ensures IsLive(c, t + 59 * MicrosPerMinute)
    ensures IsLive(c, t) && IsLive(c, t + 60 * MicrosPerMinute)
    ensures IsFinished(c, t + 61 * MicrosPerMinute) && !IsLive(c, t + 61 * MicrosPerMinute)
    ensures IsUpcoming(c, t - MicrosPerMinute) && !IsLive(c, t - MicrosPerMinute)
  {
  }

  // ---------------------------------------------------------------------------
  // Problems, test cases, submissions, results and participants

  datatype ContestProblem = ContestProblem(
    id: nat,
    contestId: nat,
    title: string,
    description: string,
    points: int,
    timeLimit: int,
    memoryLimit: int)

  /** A problem row as created with the column defaults (points 100, 1 second, 256 MB). */
  function NewContestProblem(id: nat, contestId: nat, title: string, description: string): (p: ContestProblem)
    ensures p.points == 100 && p.timeLimit == 1 && p.memoryLimit == 256
    ensures p.id == id && p.contestId == contestId && p.title == title && p.description == description
  {
    ContestProblem(id, contestId, title, description, 100, 1, 256)
  }

  datatype ContestTestCase = ContestTestCase(
    id: nat,
    problemId: nat,
    inputData: string,
    expectedOutput: string,
    isSample: bool)

  /** The submission `status` column; `Errored` is 'error', which only unreachable code writes. */
  datatype SubmissionStatus = Pending | Accepted | Partial | WrongAnswer | Errored

  datatype ContestSubmission = ContestSubmission(
    id: nat,
    contestId: nat,
    problemId: nat,
    userId: nat,
    code: string,
    language: string,
    status: SubmissionStatus,
    score: int,
    executionTime: real,
    memoryUsed: int)

  /** A submission row as created: status 'pending', score 0, no time or memory used. */
  function NewSubmission(id: nat, contestId: nat, problemId: nat, userId: nat, code: string, language: string): (s: ContestSubmission)
    ensures s.status == Pending && s.score == 0 && s.executionTime == 0.0 && s.memoryUsed == 0
    ensures s.id == id && s.contestId == contestId && s.problemId == problemId && s.userId == userId
    ensures s.code == code && s.language == language
  {
    ContestSubmission(id, contestId, problemId, userId, code, language, Pending, 0, 0.0, 0)
  }

  /** The `status` column of a test result: 'passed', 'failed' or 'error'. */
  datatype ResultStatus = ResultPassed | ResultFailed | ResultError

  datatype ContestTestResult = ContestTestResult(
    submissionId: nat,
    testCaseId: nat,
    status: ResultStatus,
    actualOutput: Option<string>,
    errorMessage: Option<string>,
    executionTime: real)

  datatype ContestParticipant = ContestParticipant(
    contestId: nat,
    userId: nat,
    totalScore: int,
    problemsSolved: int,
    rank: Option<int>,
    lastSubmission: Option<int>)

  /** A participant row as created: no score, nothing solved, no rank, no submission yet. */
  function NewParticipant(contestId: nat, userId: nat): (p: ContestParticipant)
    ensures p.contestId == contestId && p.userId == userId
    ensures p.totalScore == 0 && p.problemsSolved == 0 && p.rank.None? && p.lastSubmission.None?
  {
    ContestParticipant(contestId, userId, 0, 0, None, None)
  }

  /** The `unique_contest_participant` constraint. */
  ghost predicate UniqueParticipants(rows: seq<ContestParticipant>) {
    forall i, j :: 0 <= i < j < |rows| ==>
      rows[i].contestId != rows[j].contestId || rows[i].userId != rows[j].userId
  }
}
