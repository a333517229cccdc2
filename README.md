# CODE-TRACK-PRO contest judge and service rules, in Dafny

This project models the core of CODE-TRACK-PRO, a Flask study platform with programming
contests, study groups, a doubt forum, notifications and a coding-platform tracker. The
model is in Dafny and proves properties of it.

The heart of the model is the contest pipeline:
- The sandbox runner's status classification (`code_executor.py`), over an abstract runner outcome.
- The per-test-case verdicts of `run_test_cases`.
- The scoring loop and verdict of `submit_solution` and the sample-run loop of `run_code` (`routes.py`).
- The contest clock (`models.py`).
- The participant aggregate and the ranked results.
- The vote toggle of the forum routes, the capacity check of `join_study_group`, and the daily-hours upsert.

Around it sit the small integer and string rules of the services:
- Study-group and study-buddy scoring (`study_group_matcher.py`).
- Forum votes, accepted answers, reputation, tag extraction and similar posts (`doubt_forum_service.py`).
- The relative-time label, icons, reminder windows and their dedup, and the read-all update (`notification_service.py`).
- GeeksforGeeks profile-name cleaning, scraped totals, the sample-problem catalogue and the progress summary (`coding_tracker.py`).

Database tables are in-memory sequences of records. Where the source updates rows in place,
the table is a field of a class whose methods reassign it:
- `Voting.VotedItem`
- `Membership.MemberTable`
- `DailyHours.HoursTable`
- `DoubtForum.DoubtForumService`
- `Notifications.NotificationTable`
- `CodingTracker.Tracker`

Each such method is proved against a specification function over the old table, and the
properties are lemmas about those functions. Instants are integer microseconds. The current
time is always a parameter `now`.

Modules, one per file:
- `Wrappers`, `Text` (strip, lower, find, replace, split, integer formatting) and `Ranking` (a stable insertion sort by a strict weak order, and the `[:limit]` slice) are shared helpers.
- `CodeExecutor`, `ContestModels`, `Judge`, `Leaderboard`, `Voting`, `Membership`, `DailyHours` and `PlatformRecords` model the contest side.
- `StudyGroupMatcher`, `DoubtForum`, `Notifications` and `CodingTracker` model the services.

Where the code and its design description disagree, the model follows the code:
- A runner failure during judging gives 'wrong_answer', not 'error'.
- `submit_solution` ignores the problem's `time_limit` and runs with `execute_code`'s default of 5 seconds.
- Java, C and C++ results of a successful or failing run carry no 'success' key (only `execute_code`'s own error results carry `'success': False`). Every compiled-language test case in `submit_solution` is therefore an 'error' row, so such a submission with at least one test case is a wrong answer scoring 0 (with no test cases it is accepted with full points, like any other).

## Model

| member | source | states |
|---|---|---|
| CodeExecutor.ParseLanguage | code_executor.py:51 | a language is supported iff it is python, java, cpp or c |
| CodeExecutor.UnsupportedLanguageRunsNothing | code_executor.py:51-59 | an unsupported language gives success False, status 'error', empty output, time 0 and the 'Unsupported language' message, whatever the sandbox would have done |
| CodeExecutor.CompileFailureSkipsRun | code_executor.py:179-202 | a failed or timed-out compile gives 'compilation_error' (time 10 s on a timeout) and the run outcome is irrelevant |
| CodeExecutor.RunClassification | code_executor.py:131-161 | exit code 0 gives 'success', non-zero 'runtime_error', a timeout 'time_limit_exceeded' with empty output and time equal to the limit, a spawn failure 'error' |
| CodeExecutor.SuccessIffExitZero | code_executor.py:218-225 | status 'success' holds iff the compile step passed and the run exited with code 0 |
| CodeExecutor.SuccessKeyPresence | code_executor.py:187-244 | the 'success' key is present exactly for Python results and for `execute_code`'s own error results, not for compiled-language results |
| CodeExecutor.OutputIsStripped | code_executor.py:135-148 | the reported output has no leading or trailing whitespace |
| CodeExecutor.OutputComesFromStdout | code_executor.py:135-148 | the output is empty or the stripped standard output of a run that exited |
| CodeExecutor.ExtractJavaClassname | code_executor.py:251-255 | the result is a non-empty word (the captured class name, or 'Main') |
| CodeExecutor.NoPublicClassIsMain | code_executor.py:251-255 | source without `public` yields 'Main' |
| CodeExecutor.ClassnameRoundTrip | code_executor.py:254 | source starting `public class <name>` followed by a non-word character yields `<name>` |
| CodeExecutor.ClassifyCase | code_executor.py:276-309 | a case is passed iff the status is success and the stripped outputs are equal; success with unequal outputs is failed with 'Wrong answer'; any other status is error with empty actual output and the runner's error text |
| CodeExecutor.RunTestCases | code_executor.py:271-312 | exactly one row per test case, in input order, each the classification of that case's run |
| CodeExecutor.RunTestCasesRows | code_executor.py:150-161 | row i is numbered i+1, and a timed-out case is an error row with the time-limit message and the limit as its time |
| ContestModels.PhaseAt | models.py:290-303 | for a non-negative duration exactly one of upcoming, live and finished holds at every instant |
| ContestModels.NegativeDurationOverlap | models.py:290-303 | with a negative duration the contest is never live, and the instant before its start is both upcoming and finished |
| ContestModels.OneHourContest | models.py:290-307 | a one-hour contest is live at its start and at its end (both inclusive), finished a minute later and upcoming a minute before |
| ContestModels.NewContestProblem | models.py:316-318 | a new problem is worth 100 points with a 1 s time limit and 256 MB memory limit |
| ContestModels.NewSubmission | models.py:340-343 | a new submission is 'pending' with score 0, no time and no memory used |
| ContestModels.NewParticipant | models.py:365-368 | a new participant has score 0, nothing solved, no rank and no last submission |
| PlatformRecords.NewPlatformStats | models.py:67-73 | a new stats row has every counter 0 |
| PlatformRecords.StatsOf | coding_tracker.py:729 | the rows of a user are exactly the stored rows with that user id |
| Judge.ParticipateAccess | routes.py:1469-1474 | participation is allowed iff the contest is live; otherwise it is 'not yet started' iff upcoming, else 'ended' |
| Judge.SubmissionGate | routes.py:1688-1695 | a submission or run goes ahead iff the contest is live and the code is not blank; a closed contest is reported first |
| Judge.ResultRow | routes.py:1733-1801 | a row is passed iff the run succeeded with the 'success' key set and equal stripped outputs; an error row has a message and no output; every row belongs to the submission and test case |
| Judge.CountPassed | routes.py:1739 | the passed count never exceeds the number of rows |
| Judge.ScoreVerdict | routes.py:1804-1812 | accepted iff all passed (also with no test cases), partial iff 0 < passed < total, wrong_answer iff passed == 0 < total |
| Judge.ScoreBounds | routes.py:1804-1812 | the score is the points when accepted, 0 for wrong_answer, and otherwise lies in [0, points) |
| Judge.ScoreMonotone | routes.py:1809 | one more passed case never lowers the score |
| Judge.ScoreExamples | routes.py:1804-1812 | 3 of 4 on 100 points is partial 75; no test cases is accepted 100; 0 of 4 is wrong_answer 0 |
| Judge.SubmitSolution | routes.py:1679-1823 | a gated request stores nothing; otherwise one result row per test case in order, and the response and stored submission carry the verdict of the passed count |
| Judge.GradeCases | routes.py:1712-1801 | the grading loop gives one result row per test case, in order, each the row for that case's run, and counts exactly the passed rows |
| Judge.CountPassedNone | routes.py:1739 | rows none of which passed count 0 |
| Judge.CompiledLanguageRowsAreErrors | routes.py:1733-1734 | a Java, C or C++ run always gives an error row, because its result has no 'success' key |
| Judge.CompiledSubmissionScoresZero | routes.py:1795-1812 | a compiled-language submission with at least one test case is wrong_answer with score 0 |
| Judge.Samples | routes.py:1583 | the samples are exactly the test cases marked as samples, in order |
| Judge.FirstAbort | routes.py:1608-1609 | the first sample whose run raises, or none iff every sample runs cleanly |
| Judge.FirstAbortAt | routes.py:1676-1677 | the abort is at the first sample that raises |
| Judge.SampleRowOf | routes.py:1608-1633 | entry i is numbered i+1 and passes iff the run succeeded and the stripped outputs are equal |
| Judge.RunSamples | routes.py:1588-1674 | an exception aborts the trial with its message; otherwise one entry per sample in order, with the total and passed tallies |
| Judge.RunCodeFront | routes.py:1558-1586 | the gate comes first; a custom input runs once; without samples the 'No sample test cases' error is returned |
| Judge.RunCode | routes.py:1551-1677 | the response of `run_code` is the gate or custom run, or else the sample loop's result over the problem's samples |
| Leaderboard.BestMapSpec | routes.py:1883-1886 | the dict maps each submitted problem to its maximum score |
| Leaderboard.BestMapGrows | routes.py:1883-1886 | more submissions never lose a problem or lower its best score |
| Leaderboard.KeyOrder | routes.py:1883-1886 | the dict's keys in insertion order, each submitted problem once |
| Leaderboard.SumOverPermutation | routes.py:1888-1889 | summing over two duplicate-free orders of the same keys gives the same total |
| Leaderboard.AggregatePermutation | routes.py:1882-1889 | the total score and problems solved do not depend on the order of the submissions |
| Leaderboard.AggregateSameMembers | routes.py:1882-1889 | submissions with the same members give the same aggregate |
| Leaderboard.AggregateReplay | routes.py:1882-1889 | replaying the submissions again leaves the aggregate unchanged |
| Leaderboard.NoImprovementNoChange | routes.py:1885-1886 | a submission not beating its problem's best, on an already-scored problem, changes nothing |
| Leaderboard.RecalculateParticipant | routes.py:1878-1890 | the unreachable recalculation sets last_submission, total_score as the sum of per-problem maxima and problems_solved as the number of positive maxima |
| Leaderboard.ScanSubmissions | routes.py:1883-1886 | the loop builds exactly the best-score dict and its keys in insertion order |
| Leaderboard.AheadIsStrictWeakOrder | routes.py:1922-1926 | the results order (score desc, solved desc, last submission asc, missing last) is a strict weak order |
| Leaderboard.AssignRanks | routes.py:1929-1930 | ranks 1..n are assigned in list order, nothing else changes |
| Leaderboard.OfContest | routes.py:1922 | the contest's rows are exactly the stored rows of that contest |
| Leaderboard.ContestResults | routes.py:1909-1932 | refused iff the contest is live; otherwise the contest's participants sorted and ranked |
| Leaderboard.RanksFollowOrder | routes.py:1920-1930 | ranks run 1..n, and a participant strictly ahead always has a smaller rank |
| Leaderboard.ResultsOpenBeforeStart | routes.py:1915-1917 | results are not refused before the contest starts |
| Leaderboard.GetOrCreateParticipant | routes.py:1476-1483 | a participant row is created iff none exists, the table stays one row per (contest, user), and afterwards the row exists |
| Voting.ParseVoteType | routes.py:1084-1085 | only 'upvote' and 'downvote' are accepted |
| Voting.VoteChange | routes.py:1093-1109 | a new vote counts ±1, repeating it withdraws it (∓1), switching moves ±2 |
| Voting.ApplyVoteEffect | routes.py:1091-1112 | the tally moves by exactly the vote change, one row per user is kept, the voter's vote toggles, and other users' votes are untouched |
| Voting.VoteTwiceRestores | routes.py:1093-1097 | voting the same way twice restores the tally and the voter's vote |
| Voting.VotedItem.Vote | routes.py:1081-1151 | an invalid type is refused unchanged; otherwise the counter (NULL read as 0) moves by the vote change, and the counter stays equal to up minus down votes |
| Membership.MemberCount | routes.py:710 | the member count never exceeds the rows |
| Membership.JoinOutcomeOf | routes.py:703-713 | already-member is checked first; the join succeeds iff not a member and the group has fewer members than its capacity |
| Membership.JoinInvariants | routes.py:703-719 | a join adds no duplicate and never pushes a group past its capacity |
| Membership.MemberTable.Join | routes.py:698-722 | the outcome and the new rows are those of the join rule |
| DailyHours.UpsertEffect | routes.py:889-899 | the upsert keeps one entry per (user, date), records exactly the new hours and changes nothing else |
| DailyHours.UpsertOverwrites | routes.py:892-893 | recording twice on a day equals recording the second value once |
| DailyHours.UpsertUnique | routes.py:889-899 | the upsert keeps the table at one entry per (user, date) |
| DailyHours.FoundIsUnique | routes.py:890 | with one entry per (user, date), the lookup finds the one matching entry |
| DailyHours.HoursTable.Submit | routes.py:878-903 | hours outside 0..24 are refused unchanged; otherwise today's entry is upserted |
| StudyGroupMatcher.AssessSkill | study_group_matcher.py:45-62 | no stats gives Beginner; Advanced iff at least 200 problems, 20 hard and no positive average rating below 1800 |
| StudyGroupMatcher.MentionedTopics | study_group_matcher.py:68-72 | only listed topics are ever inferred from the goals |
| StudyGroupMatcher.GoalNamesTopic | study_group_matcher.py:69-72 | a goal text containing a topic's name in any ASCII letter case yields that topic |
| StudyGroupMatcher.InterestsWellFormed | study_group_matcher.py:74-85 | interests are never empty, and a big-tech target company brings Algorithms, System Design and Interview Preparation |
| StudyGroupMatcher.DefaultInterests | study_group_matcher.py:84-85 | for every user whose goals name no topic and whose target companies bring none, the interests are Algorithms and Data Structures |
| StudyGroupMatcher.ExtractInterests | study_group_matcher.py:64-87 | the set built topic by topic is the inferred interest set |
| StudyGroupMatcher.ScanGoals | study_group_matcher.py:68-72 | the topic loop collects exactly the topics the lowered goals name |
| StudyGroupMatcher.LevelIndex | study_group_matcher.py:96 | a level is found iff it is one of the three listed levels, at its list position |
| StudyGroupMatcher.SkillPoints | study_group_matcher.py:93-97 | 50 for equal levels; otherwise an unknown level raises, and the points are 25 or 0 |
| StudyGroupMatcher.SizePoints | study_group_matcher.py:104-108 | 20 iff 3 ≤ members ≤ max−2, 10 iff otherwise below max, 0 iff full |
| StudyGroupMatcher.RecencyPoints | study_group_matcher.py:112-116 | 15 under 7 days, 10 under 30, else 0 |
| StudyGroupMatcher.MatchScoreRange | study_group_matcher.py:89-118 | a computed score lies in [0, 115], and it fails exactly when the levels differ and one is unknown |
| StudyGroupMatcher.HigherScoreIsStrictWeakOrder | study_group_matcher.py:42 | sorting by score descending is by a strict weak order |
| StudyGroupMatcher.Available | study_group_matcher.py:27-32 | the candidates are exactly the active groups the user is not in |
| StudyGroupMatcher.ScoreGroups | study_group_matcher.py:35-39 | every kept group scored above 0 and is one of the candidates |
| StudyGroupMatcher.ScoreAll | study_group_matcher.py:35-39 | the scoring loop yields exactly the recursive scoring of the candidates, stopping at the first exception |
| StudyGroupMatcher.FindMatchingGroups | study_group_matcher.py:17-43 | no user gives no groups; otherwise the scoring loop's result, sorted and cut to `limit` |
| StudyGroupMatcher.ScoreGroupsErrPersists | study_group_matcher.py:36-37 | an exception while scoring one group ends the whole search with it |
| StudyGroupMatcher.RecommendationsSound | study_group_matcher.py:27-43 | at most `limit` groups, best first, each active, not already joined, and scoring above 0 |
| StudyGroupMatcher.RecommendationsBest | study_group_matcher.py:42-43 | a scored group cut off scores no higher than any kept one; with at most `limit` candidates all are kept |
| Ranking.SortSorted | study_group_matcher.py:42 | the stable sort's output is ordered by the key and is a permutation of its input |
| Ranking.TakeSortedKeepsBest | study_group_matcher.py:42-43 | sorting and cutting to `limit` leaves out no row that goes before a kept one, and keeps all rows when there are at most `limit` |
| StudyGroupMatcher.ActivityScore | study_group_matcher.py:165-183 | 0 for a missing group, within [0, 100], 100 from ten members on, 10·members for a group over 30 days old |
| StudyGroupMatcher.ActivityMonotone | study_group_matcher.py:177-183 | more members never lower the activity score |
| StudyGroupMatcher.BuddyThreshold | study_group_matcher.py:203-211 | a candidate clears 40 iff the levels agree or they share at least three interests |
| StudyGroupMatcher.HigherBuddyIsStrictWeakOrder | study_group_matcher.py:220 | sorting buddies by score descending is by a strict weak order |
| StudyGroupMatcher.BuddyEntry | study_group_matcher.py:203-217 | an entry exists only for the candidate and only with a score above 40 |
| StudyGroupMatcher.Buddies | study_group_matcher.py:198-217 | every entry scores above 40 and is one of the candidates |
| StudyGroupMatcher.CollectBuddies | study_group_matcher.py:196-217 | the loop collects exactly the qualifying candidates' entries, in order |
| StudyGroupMatcher.FindStudyBuddy | study_group_matcher.py:185-221 | no user gives nothing; otherwise the five best qualifying other users |
| StudyGroupMatcher.OtherUsers | study_group_matcher.py:195 | the candidates are exactly the other users |
| StudyGroupMatcher.BuddiesSound | study_group_matcher.py:185-221 | at most five suggestions, best first, never the user, each scoring above 40 |
| StudyGroupMatcher.BuddiesBest | study_group_matcher.py:220-221 | a qualifying buddy cut off scores no higher than any of the five kept; with at most five all are kept |
| DoubtForum.MatchAt | doubt_forum_service.py:196-198 | a keyword pattern matches at a position iff some alternative occurs there between word boundaries; the first such alternative is taken |
| DoubtForum.FindAll | doubt_forum_service.py:202 | every match of a keyword pattern is one of its keywords |
| DoubtForum.CommonFound | doubt_forum_service.py:190-192 | a common tag is found iff the lowered content contains it |
| DoubtForum.Dedup | doubt_forum_service.py:206 | the result is duplicate-free with the same members |
| DoubtForum.TagListProperties | doubt_forum_service.py:184-207 | the extracted tags are distinct, at most five, and each is a common tag the content mentions or a code keyword |
| DoubtForum.MentionedTagIsCandidate | doubt_forum_service.py:190-192 | a common tag the content mentions is always a candidate |
| DoubtForum.CollectMentioned | doubt_forum_service.py:187-192 | the first loop finds exactly the mentioned common tags, in list order |
| DoubtForum.CollectMatches | doubt_forum_service.py:201-203 | the second loop appends each pattern's matches in turn |
| DoubtForum.ExtractTags | doubt_forum_service.py:184-207 | the tags string is the kept tags joined with ', ' |
| DoubtForum.VoteDelta | doubt_forum_service.py:58-61 | 'up' adds one, 'down' takes one away, anything else changes nothing |
| DoubtForum.FindPost | doubt_forum_service.py:52-54 | the post is found iff some row has that key |
| DoubtForum.FindAnswer | doubt_forum_service.py:68-70 | the answer is found iff some row has that key |
| DoubtForum.FirstIndex | doubt_forum_service.py:52-54 | the first position holding the key, and none exactly when no position holds it |
| DoubtForum.PostVoteRoundTrip | doubt_forum_service.py:58-61 | an up-vote then a down-vote leave the posts unchanged |
| DoubtForum.AnswerVoteRoundTrip | doubt_forum_service.py:72-75 | an up-vote then a down-vote leave the answers unchanged |
| DoubtForum.AcceptIn | doubt_forum_service.py:90-94 | accepting keeps the table's size and only touches answers of that post |
| DoubtForum.AcceptedIsUnique | doubt_forum_service.py:90-95 | afterwards the answer is the only accepted answer of its post, and other posts' answers are unchanged |
| DoubtForum.AcceptIdempotent | doubt_forum_service.py:80-98 | accepting the same answer twice equals accepting it once |
| DoubtForum.CheckAccept | doubt_forum_service.py:82-88 | allowed exactly when the answer exists, its post exists and the caller is the post's author (both directions); a missing answer is reported as such |
| DoubtForum.Reputation | doubt_forum_service.py:135-162 | 0 for an unknown user; otherwise 2·posts + 3·answers + 5·votes + 15·accepted, clamped at 0 |
| DoubtForum.PostVotesUpdate | doubt_forum_service.py:150 | changing one post's counter by d changes its author's vote sum by d and nobody else's |
| DoubtForum.UpvoteRaisesReputation | doubt_forum_service.py:154-162 | an up-vote on a user's post raises their unclamped reputation by five |
| DoubtForum.SplitStrip | doubt_forum_service.py:170-179 | splitting the stored tags yields at least one piece |
| DoubtForum.Filter | doubt_forum_service.py:172-180 | the filter keeps exactly the other same-category posts sharing a tag |
| DoubtForum.MoreVotesIsStrictWeakOrder | doubt_forum_service.py:182 | ordering by votes descending is a strict weak order |
| DoubtForum.SimilarPostsSound | doubt_forum_service.py:164-182 | similar posts never include the post itself, share its category, share a tag when it has tags, are at most `limit`, and come most voted first |
| DoubtForum.NewPost | doubt_forum_service.py:22-37 | the category defaults to 'Other', tags are extracted iff none were given, and the counter starts at 0 |
| DoubtForum.DoubtForumService.CreatePost | doubt_forum_service.py:22-37 | the new post is appended with the next key and answers are unchanged |
| DoubtForum.DoubtForumService.VotePost | doubt_forum_service.py:50-64 | true iff the post exists; its counter moves by the vote delta |
| DoubtForum.DoubtForumService.VoteAnswer | doubt_forum_service.py:66-78 | true iff the answer exists; its counter moves by the vote delta |
| DoubtForum.DoubtForumService.MarkAnswerAccepted | doubt_forum_service.py:80-98 | true iff the check passes; then the answer is the post's one accepted answer and the post is solved, and otherwise nothing changes |
| Notifications.DiffSeconds | notification_service.py:430 | the seconds part of a timedelta lies in [0, 86400) |
| Notifications.AgoBounds | notification_service.py:432-441 | for a past instant the reading is exact to its unit: whole days from one up, hours 1 to 23 past the first hour, minutes 1 to 60 past the first minute, else just now |
| Notifications.AgoMonotone | notification_service.py:432-441 | as time passes the reading never goes down |
| Notifications.HourBoundary | notification_service.py:434-439 | exactly one hour reads "60 minutes ago"; one hour and a second reads "1 hour ago" |
| Notifications.FutureSecondReadsHoursAgo | notification_service.py:430-436 | an instant one second ahead reads "23 hours ago" |
| Notifications.PluralSuffix | notification_service.py:433-439 | the 's' is appended iff the count is not 1 |
| Notifications.Icon | notification_service.py:395-424 | an unknown or missing type shows the info icon |
| Notifications.UnknownCategoryFallsBack | notification_service.py:424 | a category without its own icons shows what 'general' shows |
| Notifications.ErrorIconEverywhere | notification_service.py:397-424 | an error notification shows the cross in every category |
| Notifications.WindowsDisjoint | notification_service.py:70-110 | the 23–25 hour reminder window and the 4–6 minute starting window never overlap |
| Notifications.ChatPreview | notification_service.py:207 | a message of at most 100 characters is kept; a longer one is its first 100 characters plus '...' |
| Notifications.ChatPreviewBounds | notification_service.py:207 | the preview is at most 103 characters long and starts with the message's start |
| Notifications.Remind | notification_service.py:79-96 | the reminder loop only appends rows |
| Notifications.RemindEffect | notification_service.py:79-96 | afterwards every student holds a reminder, and no student holds two when none did before |
| Notifications.RemindNothingNew | notification_service.py:81-88 | once every student holds a reminder the loop adds nothing |
| Notifications.RemindIdempotent | notification_service.py:63-96 | a second reminder run changes nothing |
| Notifications.Announce | notification_service.py:118-126 | one notice per student, in order, without a duplicate check |
| Notifications.ReadAll | notification_service.py:383-385 | the table keeps its size |
| Notifications.ReadAllEffect | notification_service.py:380-387 | every notification of the user is read, nothing else changes, and a second run changes nothing |
| Notifications.NotificationTable.NotifyContestReminder | notification_service.py:63-96 | inside the reminder window the dedup loop runs over the students; outside it nothing changes |
| Notifications.NotificationTable.NotifyContestStarting | notification_service.py:104-126 | inside the starting window every student gets a notice; outside it nothing changes |
| Notifications.NotificationTable.NotifyForumAnswerPosted | notification_service.py:226-243 | nothing is sent when the answerer is the author; otherwise exactly one forum notice goes to the author |
| Notifications.NotificationTable.MarkAllNotificationsRead | notification_service.py:380-387 | the bulk update marks the user's notifications read and returns true |
| CodingTracker.SupportedPlatforms | coding_tracker.py:12-33 | the supported platforms are leetcode, geeksforgeeks, hackerrank and github |
| CodingTracker.LeetCodeScraped | coding_tracker.py:155-162 | the LeetCode total is easy + medium + hard, and a missing or zero ranking reads 0 |
| CodingTracker.GfgScraped | coding_tracker.py:539-554 | with no scraped total the total is basic + easy + medium + hard; otherwise the scraped total is kept |
| CodingTracker.GfgTotalCovers | coding_tracker.py:539-541 | a fallback total covers the easy, medium and hard counts |
| CodingTracker.FindStats | coding_tracker.py:59 | the row is found iff the user has a row on that platform |
| CodingTracker.UpsertStatsEffect | coding_tracker.py:58-73 | after a sync the user's row for the platform holds exactly the scraped counters (missing keys as 0), and other rows are unchanged |
| CodingTracker.SlugShape | coding_tracker.py:721 | replacing spaces by hyphens leaves no space and keeps the length |
| CodingTracker.SampleRow | coding_tracker.py:716-722 | a sample row keeps its title, difficulty and category, and its URL is https://platform.com/problems/ plus the slug |
| CodingTracker.AddSamples | coding_tracker.py:709-723 | samples are only appended; existing rows are kept |
| CodingTracker.AddSample | coding_tracker.py:710-723 | one sample is appended only when its (title, platform) is absent, and is present afterwards |
| CodingTracker.AddSampleUnique | coding_tracker.py:710-723 | adding one sample keeps the table free of duplicate (title, platform) pairs |
| CodingTracker.AddSamplesEffect | coding_tracker.py:709-723 | afterwards every sample is present, and a table without duplicate (title, platform) pairs keeps none |
| CodingTracker.AddSamplesNothingNew | coding_tracker.py:710-715 | with every sample present nothing is added |
| CodingTracker.AddSamplesIdempotent | coding_tracker.py:655-725 | adding the samples twice equals adding them once |
| CodingTracker.ProgressOf | coding_tracker.py:739-755 | the summary fails iff some row's platform is unknown; otherwise it has one entry per platform of the rows |
| CodingTracker.ProgressStep | coding_tracker.py:739-755 | one more known row adds its counters to the totals and its summary to the map |
| CodingTracker.ProgressFirstError | coding_tracker.py:746 | the first row of an unknown platform decides the KeyError |
| CodingTracker.ProgressSums | coding_tracker.py:739-743 | the four totals are the sums of the rows' counters |
| CodingTracker.TotalCoversDifficulties | coding_tracker.py:739-743 | when each row's total covers its difficulties, so does the summary's |
| CodingTracker.NormaliseGfgUsername | coding_tracker.py:343-361 | accepted iff the cleaned name has at least two characters and is not a bare scheme; the accepted value is the cleaned name |
| CodingTracker.NormalisedIsTrimmed | coding_tracker.py:357-361 | an accepted name has no surrounding whitespace and at least two characters |
| CodingTracker.PlainNameKept | coding_tracker.py:343-361 | a plain profile name with no surrounding whitespace and at least two characters is accepted unchanged |
| CodingTracker.Tracker.AddSampleProblems | coding_tracker.py:708-725 | the loop inserts exactly as the catalogue rule does and leaves the stats alone |
| CodingTracker.Tracker.SyncPlatformData | coding_tracker.py:35-81 | an unsupported platform is refused unchanged; otherwise the row is upserted, and samples are added except for GitHub |
| CodingTracker.Tracker.GetPlatformProgress | coding_tracker.py:727-757 | the loop's result is the progress summary of the user's rows |
| CodingTracker.AccumulateProgress | coding_tracker.py:739-757 | the accumulation loop returns the progress summary of its rows, or the KeyError of the first unknown platform |

## Left out

- Process spawning, temporary directories, pipes, signals and wall-clock execution times are not modelled. The runner is an abstract outcome (`CodeExecutor.Attempt`), and a measured time is an input.
- The Flask layer is not modelled: routing, sessions, templates, flash messages and JSON encoding. The SQLAlchemy queries and commits are reduced to in-memory sequences; a failed commit and the rollback are not modelled.
- Reading the clock (`datetime.now()` / `utcnow()`) is not modelled: the instant is a parameter. The source mixes local time (the contest clock) with UTC (the routes and notifications); the model uses one time line.
- The partial score is computed with floats in the source. The model uses the exact truncated quotient of passed·points/total (`Judge.TruncDiv`), which the float can miss by one (29/100·100 gives 28).
- The float ease factors of spaced repetition, the retention rate and other float arithmetic are not modelled; the daily hours are a `real`.
- Leaderboard.RecalculateParticipant models code that sits after a `return` in `submit_solution` and never runs.
- Judge.SubmitSolution: the per-title test-code templating ("Sum of Two Numbers", and so on) is not modelled; each case's run is an input, whatever code was executed.
- The AI providers, the AI tutor, the flashcard generators, the scheduler thread and the web scraping (HTTP, HTML parsing, random mock data) are not modelled. The scraped counters are an input to `CodingTracker.Tracker.SyncPlatformData`. The fallback to mock data when a scraper raises (including an invalid GeeksforGeeks name) is left out.
- CodingTracker.Tracker.AddSampleProblems takes the platform's sample list as a parameter; the forty catalogue entries are data.
- CodingTracker.NormaliseGfgUsername: no concrete URL such as a full profile link is evaluated. The cleaning is specified step by step and proved on plain names only, because evaluating the string operations on a literal URL is beyond what the verifier does cheaply.
- Text.Lower and the word-character class of the keyword patterns are ASCII only; Python's Unicode lower-casing and `\w` are not modelled.
- CodeExecutor.ExtractJavaClassname: the class-name capture uses the same ASCII word-character class, where Python's `\w` is Unicode; on `public class Café {}` the source captures "Café" and the model "Caf".
- DoubtForum.TagList: `list(set(found_tags))` has an unspecified order in Python; the model keeps the first occurrence order, so the five tags kept may differ from the source's.
- DoubtForum.SimilarPosts: SQL `LIKE` wildcards in tags and database-collation case rules are not modelled; `contains` is a substring test.
- Ties in SQL `ORDER BY` keep the stored order in the model (a stable sort); the database gives no such guarantee.
- Notifications.InReminderWindow and Notifications.InStartingWindow compare exact rationals instead of the source's float quotients.
- The reminder and starting-soon messages (with `strftime` formatting) are parameters. The other broadcasts (`notify_contest_created`, `notify_forum_question_posted`, the study-group notices) are not modelled. The earlier definitions of `get_user_notifications`, `mark_notification_read` and `mark_all_notifications_read`, which later definitions shadow, are not modelled.
- `create_answer`, `search_posts`, `get_trending_posts`, `get_post_statistics` and the AI answer suggestion of the forum service are not modelled. Neither are `create_suggested_groups` of the matcher or `get_recent_activity` and `get_weak_areas` of the tracker.
- Integers are unbounded; the source's Python integers are too, so nothing is lost.
