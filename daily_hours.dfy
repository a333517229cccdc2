/**
  `submit_daily_hours` in `routes.py`: a user records today's coding hours, replacing
  any earlier entry for the same day, so the table keeps one entry per (user, date)
  as its unique constraint demands. Dates are day numbers; `today` is a parameter.
*/
module DailyHours {

  import opened Wrappers

  datatype HoursRow = HoursRow(userId: nat, date: int, hours: real)

  /** The `unique_user_date` constraint. */
  predicate OnePerUserDate(rows: seq<HoursRow>) {
    forall i, j :: 0 <= i < j < |rows| ==> rows[i].userId != rows[j].userId || rows[i].date != rows[j].date
  }

  /** The position of the user's entry for `date`. */
  function FindEntry(rows: seq<HoursRow>, userId: nat, date: int): (r: Option<nat>)
    ensures r.Some? ==> r.value < |rows| && rows[r.value].userId == userId && rows[r.value].date == date
    ensures r.None? <==> forall i :: 0 <= i < |rows| ==> rows[i].userId != userId || rows[i].date != date
  {
    if rows == [] then None
    else if rows[|rows| - 1].userId == userId && rows[|rows| - 1].date == date then Some(|rows| - 1)
    else FindEntry(rows[..|rows| - 1], userId, date)
  }

  /** The table after the upsert. */
  function Upsert(rows: seq<HoursRow>, userId: nat, date: int, hours: real): seq<HoursRow> {
    match FindEntry(rows, userId, date)
    case Some(i) => rows[i := rows[i].(hours := hours)]
    case None => rows + [HoursRow(userId, date, hours)]
  }

  /** The hours recorded for the user on `date`, if any. */
  function HoursOn(rows: seq<HoursRow>, userId: nat, date: int): Option<real> {
    match FindEntry(rows, userId, date)
    case Some(i) => Some(rows[i].hours)
    case None => None
  }

  /** The upsert keeps the table at one entry per (user, date). */
  lemma UpsertUnique(rows: seq<HoursRow>, userId: nat, date: int, hours: real)
    requires OnePerUserDate(rows)
    ensures OnePerUserDate(Upsert(rows, userId, date, hours))
  {
  }

  /** The upsert keeps one entry per (user, date), records exactly the new hours for that
      day, and leaves every other user's and every other day's entry as it was. */
  lemma UpsertEffect(rows: seq<HoursRow>, userId: nat, date: int, hours: real)
    requires OnePerUserDate(rows)
    ensures var r := Upsert(rows, userId, date, hours);
            && OnePerUserDate(r)
            && HoursOn(r, userId, date) == Some(hours)
            && (forall u, d :: u != userId || d != date ==> HoursOn(r, u, d) == HoursOn(rows, u, d))
  {
    var r := Upsert(rows, userId, date, hours);
    UpsertUnique(rows, userId, date, hours);
    forall u, d ensures HoursOn(r, u, d) == if u == userId && d == date then Some(hours) else HoursOn(rows, u, d) {
      match FindEntry(rows, u, d)
      case None =>
        assert forall k :: 0 <= k < |rows| ==> r[k].userId == rows[k].userId && r[k].date == rows[k].date;
      case Some(k) =>
        assert r[k].userId == u && r[k].date == d;
        var j := FindEntry(r, u, d).value;
        assert r[j].userId == u && r[j].date == d;
        assert j == k;
    }
  }

  /** In a table with one entry per (user, date), a matching entry is the one found. */
  lemma FoundIsUnique(rows: seq<HoursRow>, userId: nat, date: int, i: nat)
    requires OnePerUserDate(rows)
    requires i < |rows| && rows[i].userId == userId && rows[i].date == date
    ensures FindEntry(rows, userId, date) == Some(i)
  {
    var j := FindEntry(rows, userId, date).value;
    assert rows[j].userId == rows[i].userId && rows[j].date == rows[i].date;
  }

  /** Recording twice on the same day leaves the table as recording once with the
      later value. */
  lemma UpsertOverwrites(rows: seq<HoursRow>, userId: nat, date: int, h1: real, h2: real)
    requires OnePerUserDate(rows)
    ensures Upsert(Upsert(rows, userId, date, h1), userId, date, h2) == Upsert(rows, userId, date, h2)
  {
    var once := Upsert(rows, userId, date, h1);
    UpsertUnique(rows, userId, date, h1);
    match FindEntry(rows, userId, date)
    case Some(i) =>
      FoundIsUnique(once, userId, date, i);
      assert once[i := once[i].(hours := h2)] == rows[i := rows[i].(hours := h2)];
    case None =>
      FoundIsUnique(once, userId, date, |rows|);
      assert once[|rows| := once[|rows|].(hours := h2)] == rows + [HoursRow(userId, date, h2)];
  }

  /** The entries of every user. */
  class HoursTable {
    var rows: seq<HoursRow>

    constructor ()
      ensures rows == []
    {
      rows := [];
    }

    /** `submit_daily_hours`: hours outside 0..24 are refused; otherwise today's entry is
        updated or created. */
    method Submit(userId: nat, today: int, hours: real) returns (r: Result<()>)
      modifies this
      ensures hours < 0.0 || hours > 24.0 ==> r == Err("Hours must be between 0 and 24") && rows == old(rows)
      ensures 0.0 <= hours <= 24.0 ==> r == Ok(()) && rows == Upsert(old(rows), userId, today, hours)
    {
      if hours < 0.0 || hours > 24.0 {
        return Err("Hours must be between 0 and 24");
      }
      var existing := FindEntry(rows, userId, today);
      if existing.Some? {
        var i := existing.value;
        rows := rows[i := rows[i].(hours := hours)];
      } else {
        rows := rows + [HoursRow(userId, today, hours)];
      }
      r := Ok(());
    }
  }
}
