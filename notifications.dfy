/**
  The notification service of `notification_service.py`: the relative-time label and the
  icon of a notification, the contest reminder and starting-soon broadcasts, the forum
  answer notice, the chat preview and marking every notification of a user read.

  Instants are microseconds; `now` is a parameter because the source reads the clock.
  The notification table is a sequence of rows held by a `NotificationTable` object.
*/
module Notifications {

  import opened Wrappers
  import opened Text
  import opened ContestModels

  const MicrosPerDay: int := 86_400 * MicrosPerSecond
  const MicrosPerHour: int := 3_600 * MicrosPerSecond

  // ---------------------------------------------------------------------------
  // Relative time

  /** The reading `_time_ago` gives. */
  datatype Elapsed = Days(n: int) | Hours(n: int) | Minutes(n: int) | JustNow

  /** `diff.days` and `diff.seconds` of `now - createdAt` as Python normalises a timedelta:
      whole days rounded down, then the whole seconds left over (0 to 86399). */
  function DiffDays(now: int, createdAt: int): int {
    (now - createdAt) / MicrosPerDay
  }

  function DiffSeconds(now: int, createdAt: int): (s: int)
    ensures 0 <= s < 86_400
  {
    ((now - createdAt) % MicrosPerDay) / MicrosPerSecond
  }

  /** The branch `_time_ago` takes: days if any, else hours past the first hour, else
      minutes past the first minute, else just now. */
  function Ago(now: int, createdAt: int): Elapsed {
    var days := DiffDays(now, createdAt);
    var seconds := DiffSeconds(now, createdAt);
    if days > 0 then Days(days)
    else if seconds > 3600 then Hours(seconds / 3600)
    else if seconds > 60 then Minutes(seconds / 60)
    else JustNow
  }

  /** `f"{n} {unit}{'s' if n != 1 else ''} ago"`. */
  function CountAgo(n: int, unit: string): string {
    IntToString(n) + " " + unit + (if n != 1 then "s" else "") + " ago"
  }

  function Render(e: Elapsed): string {
    match e
    case Days(n) => CountAgo(n, "day")
    case Hours(n) => CountAgo(n, "hour")
    case Minutes(n) => CountAgo(n, "minute")
    case JustNow => "Just now"
  }

  /** `_time_ago(created_at)` at instant `now`. */
  function TimeAgo(now: int, createdAt: int): string {
    Render(Ago(now, createdAt))
  }

  /** The whole seconds a reading stands for, at least. */
  function LowerBound(e: Elapsed): int {
    match e
    case Days(n) => 86_400 * n
    case Hours(n) => 3_600 * n
    case Minutes(n) => 60 * n
    case JustNow => 0
  }

  /** For a timestamp in the past the reading never overstates the elapsed whole seconds and
      is exact to its unit: days from one up, hours 1 to 23, minutes 1 to 60, and just now
      up to a minute. */
  lemma AgoBounds(now: int, createdAt: int)
    requires createdAt <= now
    ensures var secs := (now - createdAt) / MicrosPerSecond;
            match Ago(now, createdAt)
            case Days(n) => 1 <= n && 86_400 * n <= secs < 86_400 * (n + 1)
            case Hours(n) => 1 <= n <= 23 && 3_600 * n <= secs < 3_600 * (n + 1) && secs > 3_600
            case Minutes(n) => 1 <= n <= 60 && 60 * n <= secs < 60 * (n + 1) && 60 < secs <= 3_600
            case JustNow => secs <= 60
  {
    var diff := now - createdAt;
    assert diff / MicrosPerSecond == DiffDays(now, createdAt) * 86_400 + DiffSeconds(now, createdAt);
  }

  /** As time passes the reading never goes down. */
  lemma AgoMonotone(createdAt: int, now1: int, now2: int)
    requires createdAt <= now1 <= now2
    ensures LowerBound(Ago(now1, createdAt)) <= LowerBound(Ago(now2, createdAt))
  {
    AgoBounds(now1, createdAt);
    AgoBounds(now2, createdAt);
    var s1 := (now1 - createdAt) / MicrosPerSecond;
    var s2 := (now2 - createdAt) / MicrosPerSecond;
    assert s1 <= s2;
  }

  /** Exactly one hour reads "60 minutes ago"; an hour and a second reads "1 hour ago". */
  lemma HourBoundary(t: int)
    ensures TimeAgo(t + MicrosPerHour, t) == "60 minutes ago"
    ensures TimeAgo(t + MicrosPerHour + MicrosPerSecond, t) == "1 hour ago"
  {
    assert Ago(t + MicrosPerHour, t) == Minutes(60);
    assert Ago(t + MicrosPerHour + MicrosPerSecond, t) == Hours(1);
    assert IntToString(60) == "60" by {
      assert NatToString(6) == "6";
    }
  }

  /** A timestamp one second in the future reads "23 hours ago": the day count is -1 and
      the leftover seconds are 86399. */
  lemma FutureSecondReadsHoursAgo(t: int)
    ensures Ago(t - MicrosPerSecond, t) == Hours(23)
  {
    assert (t - MicrosPerSecond - t) / MicrosPerDay == -1;
    assert (t - MicrosPerSecond - t) % MicrosPerDay == MicrosPerDay - MicrosPerSecond;
  }

  /** The plural 's' appears exactly when the count is not one. */
  lemma PluralSuffix(n: int, unit: string)
    requires |unit| > 0 && unit[|unit| - 1] != 's'
    ensures var r := CountAgo(n, unit);
            |r| >= 5 && (r[|r| - 5..] == "s ago" <==> n != 1)
  {
    var r := CountAgo(n, unit);
    if n == 1 {
      assert r[|r| - 5] == unit[|unit| - 1];
    }
  }

  // ---------------------------------------------------------------------------
  // Icons

  const InfoIcon: string := "\U{2139}\U{FE0F}"

  const Icons: map<string, map<string, string>> := map[
    "contest" := map["info" := "\U{1F3C6}", "warning" := "\U{23F0}", "success" := "\U{1F680}", "error" := "\U{274C}"],
    "forum" := map["info" := "\U{2753}", "success" := "\U{2705}", "warning" := "\U{26A0}\U{FE0F}", "error" := "\U{274C}"],
    "study_group" := map["info" := "\U{1F465}", "success" := "\U{1F4A1}", "warning" := "\U{26A0}\U{FE0F}", "error" := "\U{274C}"],
    "general" := map["info" := InfoIcon, "success" := "\U{2705}", "warning" := "\U{26A0}\U{FE0F}", "error" := "\U{274C}"]]

  /** `_get_notification_icon`: an unknown (or NULL) category uses the general icons, and an
      unknown (or NULL) type the information sign. */
  function Icon(category: Option<string>, notificationType: Option<string>): (r: string)
    ensures notificationType.None? || notificationType.value !in {"info", "success", "warning", "error"} ==> r == InfoIcon
  {
    var icons := if category.Some? && category.value in Icons then Icons[category.value] else Icons["general"];
    if notificationType.Some? && notificationType.value in icons then icons[notificationType.value] else InfoIcon
  }

  /** A category without its own icons shows exactly what the general category shows. */
  lemma UnknownCategoryFallsBack(category: Option<string>, notificationType: Option<string>)
    requires category.None? || category.value !in Icons
    ensures Icon(category, notificationType) == Icon(Some("general"), notificationType)
  {
  }

  /** Every error notification shows the cross, whatever its category. */
  lemma ErrorIconEverywhere(category: Option<string>)
    ensures Icon(category, Some("error")) == "\U{274C}"
  {
  }

  // ---------------------------------------------------------------------------
  // Windows and texts

  /** `23 <= hours_until_start <= 25`, with the hours taken exactly. */
  predicate InReminderWindow(startDate: int, now: int) {
    23 * MicrosPerHour <= startDate - now <= 25 * MicrosPerHour
  }

  /** `4 <= minutes_until_start <= 6`, with the minutes taken exactly. */
  predicate InStartingWindow(startDate: int, now: int) {
    4 * MicrosPerMinute <= startDate - now <= 6 * MicrosPerMinute
  }

  /** The two windows never overlap, so one check never sends both notices. */
  lemma WindowsDisjoint(startDate: int, now: int)
    ensures !(InReminderWindow(startDate, now) && InStartingWindow(startDate, now))
  {
  }

  function ReminderTitle(contestTitle: string): string {
    "\U{23F0} Contest Reminder: " + contestTitle
  }

  function StartingTitle(contestTitle: string): string {
    "\U{1F6A8} Contest Starting Soon: " + contestTitle
  }

  /** The chat preview in a study-group message notice: the first hundred characters, with an
      ellipsis exactly when something was cut. */
  function ChatPreview(message: string): (r: string)
    ensures |message| <= 100 ==> r == message
    ensures |message| > 100 ==> r == message[..100] + "..."
  {
    message[..if |message| < 100 then |message| else 100] + (if |message| > 100 then "..." else "")
  }

  /** The preview never exceeds 103 characters and keeps the start of the message. */
  lemma ChatPreviewBounds(message: string)
    ensures var r := ChatPreview(message);
            && |r| == (if |message| > 100 then 103 else |message|)
            && (|message| > 100 ==> r[..100] == message[..100] && r[100..] == "...")
  {
  }

  // ---------------------------------------------------------------------------
  // The notification table

  datatype Notification = Notification(
    id: nat,
    userId: nat,
    title: string,
    message: string,
    notificationType: string,
    category: string,
    isRead: bool,
    createdAt: int,
    contestId: Option<nat>,
    forumPostId: Option<nat>)

  /** `create_notification`: a new unread row with the next key. */
  function NewRow(rows: seq<Notification>, userId: nat, title: string, message: string, notificationType: string,
                  category: string, now: int, contestId: Option<nat>, forumPostId: Option<nat>): Notification {
    Notification(|rows| + 1, userId, title, message, notificationType, category, false, now, contestId, forumPostId)
  }

  /** The duplicate check of the reminder: a contest notice with this title for this user. */
  predicate IsReminderFor(n: Notification, userId: nat, contestId: nat, title: string) {
    n.userId == userId && n.contestId == Some(contestId) && n.category == "contest" && n.title == title
  }

  predicate HasReminder(rows: seq<Notification>, userId: nat, contestId: nat, title: string) {
    exists i :: 0 <= i < |rows| && IsReminderFor(rows[i], userId, contestId, title)
  }

  /** The reminder loop over `students`: a warning for each one who has none yet. */
  function Remind(rows: seq<Notification>, students: seq<nat>, contestId: nat, title: string, message: string, now: int)
    : (r: seq<Notification>)
    ensures |rows| <= |r| && r[..|rows|] == rows
  {
    if students == [] then rows
    else
      var before := Remind(rows, students[..|students| - 1], contestId, title, message, now);
      var s := students[|students| - 1];
      if HasReminder(before, s, contestId, title) then before
      else before + [NewRow(before, s, title, message, "warning", "contest", now, Some(contestId), None)]
  }

  /** No student holds two reminders for the same contest and title. */
  predicate NoDuplicateReminders(rows: seq<Notification>, contestId: nat, title: string) {
    forall i, j :: 0 <= i < j < |rows| && IsReminderFor(rows[i], rows[i].userId, contestId, title)
                   ==> !IsReminderFor(rows[j], rows[i].userId, contestId, title)
  }

  /** After the loop every student holds a reminder, and a table without duplicate reminders
      still has none. */
  lemma {:induction false} RemindEffect(rows: seq<Notification>, students: seq<nat>, contestId: nat, title: string,
                                        message: string, now: int)
    ensures var r := Remind(rows, students, contestId, title, message, now);
            forall s :: s in students ==> HasReminder(r, s, contestId, title)
    ensures NoDuplicateReminders(rows, contestId, title) ==>
              NoDuplicateReminders(Remind(rows, students, contestId, title, message, now), contestId, title)
  {
    if students != [] {
      var n := |students|;
      var before := Remind(rows, students[..n - 1], contestId, title, message, now);
      var r := Remind(rows, students, contestId, title, message, now);
      var s := students[n - 1];
      RemindEffect(rows, students[..n - 1], contestId, title, message, now);
      forall x | x in students ensures HasReminder(r, x, contestId, title) {
        if x in students[..n - 1] {
          var i :| 0 <= i < |before| && IsReminderFor(before[i], x, contestId, title);
          assert r[i] == before[i];
        } else {
          assert x == s;
          if !HasReminder(before, s, contestId, title) {
            assert IsReminderFor(r[|before|], s, contestId, title);
          }
        }
      }
      if NoDuplicateReminders(rows, contestId, title) && !HasReminder(before, s, contestId, title) {
        forall i, j | 0 <= i < j < |r| && IsReminderFor(r[i], r[i].userId, contestId, title)
          ensures !IsReminderFor(r[j], r[i].userId, contestId, title)
        {
          if j == |before| {
            assert r[i] == before[i];
            assert !IsReminderFor(before[i], s, contestId, title);
          }
        }
      }
    }
  }

  /** Once every student holds a reminder, running the loop again adds nothing. */
  lemma {:induction false} RemindNothingNew(rows: seq<Notification>, students: seq<nat>, contestId: nat, title: string,
                                            message: string, now: int)
    requires forall s :: s in students ==> HasReminder(rows, s, contestId, title)
    ensures Remind(rows, students, contestId, title, message, now) == rows
  {
    if students != [] {
      var n := |students|;
      assert forall s :: s in students[..n - 1] ==> s in students;
      RemindNothingNew(rows, students[..n - 1], contestId, title, message, now);
    }
  }

  /** A second reminder run, at any instant, changes nothing. */
  lemma RemindIdempotent(rows: seq<Notification>, students: seq<nat>, contestId: nat, title: string,
                         message: string, now: int, later: int)
    ensures var once := Remind(rows, students, contestId, title, message, now);
            Remind(once, students, contestId, title, message, later) == once
  {
    var once := Remind(rows, students, contestId, title, message, now);
    RemindEffect(rows, students, contestId, title, message, now);
    RemindNothingNew(once, students, contestId, title, message, later);
  }

  /** The starting-soon loop: one success notice per student, without a duplicate check. */
  function Announce(rows: seq<Notification>, students: seq<nat>, contestId: nat, title: string, message: string, now: int)
    : (r: seq<Notification>)
    ensures |r| == |rows| + |students| && r[..|rows|] == rows
    ensures forall k :: 0 <= k < |students| ==> r[|rows| + k].userId == students[k] && r[|rows| + k].title == title
                                                && r[|rows| + k].contestId == Some(contestId)
  {
    if students == [] then rows
    else
      var n := |students|;
      var before := Announce(rows, students[..n - 1], contestId, title, message, now);
      var r := before + [NewRow(before, students[n - 1], title, message, "success", "contest", now, Some(contestId), None)];
      assert r[..|rows|] == before[..|rows|];
      forall k | 0 <= k < n
        ensures r[|rows| + k].userId == students[k] && r[|rows| + k].title == title && r[|rows| + k].contestId == Some(contestId)
      {
        if k < n - 1 {
          assert r[|rows| + k] == before[|rows| + k] && students[..n - 1][k] == students[k];
        }
      }
      r
  }

  /** The table after `mark_all_notifications_read(u)`. */
  function ReadAll(rows: seq<Notification>, u: nat): (r: seq<Notification>)
    ensures |r| == |rows|
  {
    seq(|rows|, k requires 0 <= k < |rows| => if rows[k].userId == u && !rows[k].isRead then rows[k].(isRead := true) else rows[k])
  }

  /** Afterwards every notification of the user is read, nothing else changed, and a second
      call changes nothing. */
  lemma ReadAllEffect(rows: seq<Notification>, u: nat)
    ensures var r := ReadAll(rows, u);
            && (forall k :: 0 <= k < |r| && r[k].userId == u ==> r[k].isRead)
            && (forall k :: 0 <= k < |r| ==> r[k].(isRead := rows[k].isRead) == rows[k])
            && (forall k :: 0 <= k < |r| && rows[k].userId != u ==> r[k] == rows[k])
            && ReadAll(r, u) == r
  {
  }

  class NotificationTable {
    var rows: seq<Notification>

    constructor ()
      ensures rows == []
    {
      rows := [];
    }

    /** `notify_contest_reminder` for the students `students` (the users with role
        'student'); `message` is the formatted reminder text. */
    method NotifyContestReminder(contest: Contest, students: seq<nat>, message: string, now: int)
      modifies this
      ensures InReminderWindow(contest.startDate, now) ==>
                rows == Remind(old(rows), students, contest.id, ReminderTitle(contest.title), message, now)
      ensures !InReminderWindow(contest.startDate, now) ==> rows == old(rows)
    {
      if !InReminderWindow(contest.startDate, now) {
        return;
      }
      var title := ReminderTitle(contest.title);
      var i := 0;
      while i < |students|
        invariant 0 <= i <= |students|
        invariant rows == Remind(old(rows), students[..i], contest.id, title, message, now)
      {
        assert students[..i + 1][..i] == students[..i];
        var student := students[i];
        var existing := HasReminder(rows, student, contest.id, title);
        if !existing {
          rows := rows + [NewRow(rows, student, title, message, "warning", "contest", now, Some(contest.id), None)];
        }
        i := i + 1;
      }
      assert students[..i] == students;
    }

    /** `notify_contest_starting`: one notice per student when the start is four to six
        minutes away. */
    method NotifyContestStarting(contest: Contest, students: seq<nat>, message: string, now: int)
      modifies this
      ensures InStartingWindow(contest.startDate, now) ==>
                rows == Announce(old(rows), students, contest.id, StartingTitle(contest.title), message, now)
      ensures !InStartingWindow(contest.startDate, now) ==> rows == old(rows)
    {
      if !InStartingWindow(contest.startDate, now) {
        return;
      }
      var title := StartingTitle(contest.title);
      var i := 0;
      while i < |students|
        invariant 0 <= i <= |students|
        invariant rows == Announce(old(rows), students[..i], contest.id, title, message, now)
      {
        assert students[..i + 1][..i] == students[..i];
        rows := rows + [NewRow(rows, students[i], "\U{1F6A8} Contest Starting Soon: " + contest.title, message,
                               "success", "contest", now, Some(contest.id), None)];
        i := i + 1;
      }
      assert students[..i] == students;
    }

    /** `notify_forum_answer_posted`: the question's author hears of the answer unless they
        wrote it themself. */
    method NotifyForumAnswerPosted(postId: nat, postAuthorId: nat, answererId: nat, message: string, now: int)
      modifies this
      ensures postAuthorId == answererId ==> rows == old(rows)
      ensures postAuthorId != answererId ==>
                rows == old(rows) + [NewRow(old(rows), postAuthorId, "\U{2705} Your Question Got an Answer!", message,
                                            "success", "forum", now, None, Some(postId))]
    {
      if postAuthorId != answererId {
        rows := rows + [NewRow(rows, postAuthorId, "\U{2705} Your Question Got an Answer!", message,
                               "success", "forum", now, None, Some(postId))];
      }
    }

    /** `mark_all_notifications_read` as finally defined: one bulk update of the user's
        unread rows. */
    method MarkAllNotificationsRead(u: nat) returns (ok: bool)
      modifies this
      ensures ok && rows == ReadAll(old(rows), u)
    {
      var current := rows;
      rows := seq(|current|, k requires 0 <= k < |current| =>
                    if current[k].userId == u && !current[k].isRead then current[k].(isRead := true) else current[k]);
      ok := true;
    }
  }
}
