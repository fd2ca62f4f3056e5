/**
 * The listening tracker page of app.py, without its user interface: the
 * table of rows loaded from the schedule, the choice of the album to listen
 * to now and of the one after it, the submission that marks one row as
 * listened, and the colour of each calendar event.
 */
module Tracker {
  import opened Wrappers
  import opened Decimal
  import opened Calendar
  import opened Generator

  /** One row of the DataFrame: the `date` column and the stored entry's columns. */
  datatype Row = Row(date: string, entry: Entry)

  /** The row indices of `df[df['ecoute'] == False]`, in table order. */
  function ToDo(rows: seq<Row>): (r: seq<nat>)
    ensures forall k :: 0 <= k < |r| ==> r[k] < |rows| && !rows[r[k]].entry.ecoute
    ensures forall j :: 0 <= j < |rows| && !rows[j].entry.ecoute ==> j in r
    ensures forall k, l :: 0 <= k < l < |r| ==> r[k] < r[l]
    decreases |rows|
  {
    if |rows| == 0 then []
    else
      var front := ToDo(rows[..|rows| - 1]);
      if rows[|rows| - 1].entry.ecoute then front else front + [|rows| - 1]
  }

  /** `df[df['ecoute'] == True].shape[0]`: never more than the number of rows. */
  function WatchedCount(rows: seq<Row>): (n: nat)
    ensures n <= |rows|
    decreases |rows|
  {
    if |rows| == 0 then 0
    else WatchedCount(rows[..|rows| - 1]) + (if rows[|rows| - 1].entry.ecoute then 1 else 0)
  }

  /** Every row is either listened to or still to do. */
  lemma {:induction false} WatchedPlusToDo(rows: seq<Row>)
    ensures WatchedCount(rows) + |ToDo(rows)| == |rows|
    decreases |rows|
  {
    if |rows| > 0 {
      WatchedPlusToDo(rows[..|rows| - 1]);
    }
  }

  /** The active album (`df_todo.index[0]`), or None when every album has been listened to. */
  function CurrentAlbum(rows: seq<Row>): (r: Option<nat>)
    ensures r.None? <==> forall j :: 0 <= j < |rows| ==> rows[j].entry.ecoute
    ensures r.Some? ==> r.value < |rows| && !rows[r.value].entry.ecoute
    ensures r.Some? ==> forall j :: 0 <= j < r.value ==> rows[j].entry.ecoute
  {
    var todo := ToDo(rows);
    if |todo| == 0 then None
    else
      forall j | 0 <= j < |rows| && !rows[j].entry.ecoute
        ensures todo[0] <= j
      {
        var k :| 0 <= k < |todo| && todo[k] == j;
      }
      Some(todo[0])
  }

  /**
   * What the sidebar shows: the second row to do, the message
   * "C'est le tout dernier album de la liste !" or "Liste terminée !".
   */
  datatype Sidebar = NextAlbum(index: nat) | LastAlbum | ListFinished

  /** The three-way sidebar choice on the number of rows still to do. */
  function UpNext(rows: seq<Row>): (s: Sidebar)
    ensures s.ListFinished? <==> CurrentAlbum(rows).None?
    ensures s.LastAlbum? <==>
      (CurrentAlbum(rows).Some?
       && forall j :: 0 <= j < |rows| && j != CurrentAlbum(rows).value ==> rows[j].entry.ecoute)
    ensures s.NextAlbum? ==>
      (CurrentAlbum(rows).Some?
       && CurrentAlbum(rows).value < s.index < |rows| && !rows[s.index].entry.ecoute
       && forall j :: CurrentAlbum(rows).value < j < s.index ==> rows[j].entry.ecoute)
  {
    var todo := ToDo(rows);
    if |todo| >= 2 then
      forall j | 0 <= j < |rows| && !rows[j].entry.ecoute
        ensures j == todo[0] || todo[1] <= j
      {
        var k :| 0 <= k < |todo| && todo[k] == j;
      }
      NextAlbum(todo[1])
    else if |todo| == 1 then
      forall j | 0 <= j < |rows| && !rows[j].entry.ecoute
        ensures j == todo[0]
      {
        var k :| 0 <= k < |todo| && todo[k] == j;
      }
      LastAlbum
    else
      ListFinished
  }

  /** The rating stored on submission: the star widget's 0-based index plus one, or 3 when no star is chosen. */
  function FinalNote(noteInput: Option<int>): (note: int)
    ensures (noteInput.None? || 0 <= noteInput.value <= 4) ==> 1 <= note <= 5
    ensures noteInput.Some? ==> note - 1 == noteInput.value
    ensures noteInput.None? ==> note == 3
  {
    match noteInput
    case Some(k) => k + 1
    case None => 3
  }

  /** The table after the active row `k` is marked as listened with `note` and `avis`. */
  function MarkListened(rows: seq<Row>, k: nat, note: int, avis: string): (r: seq<Row>)
    requires k < |rows|
    ensures |r| == |rows|
    ensures forall j :: 0 <= j < |rows| && j != k ==> r[j] == rows[j]
    ensures r[k].entry.ecoute && r[k].entry.note == Some(note) && r[k].entry.avis == avis
    ensures r[k].date == rows[k].date && r[k].entry.artiste == rows[k].entry.artiste
      && r[k].entry.album == rows[k].entry.album && r[k].entry.genre == rows[k].entry.genre
      && r[k].entry.tag == rows[k].entry.tag
  {
    rows[k := rows[k].(entry := rows[k].entry.(ecoute := true, note := Some(note), avis := avis))]
  }

  /**
   * The rating form: when there is an active row, write `ecoute`, `note`
   * and `avis` on that row of the table, in place; when there is none, the
   * completion message is shown and no row is touched.
   */
  method Submit(table: array<Row>, noteInput: Option<int>, avis: string) returns (active: Option<nat>)
    modifies table
    ensures active == CurrentAlbum(old(table[..]))
    ensures active.None? ==> table[..] == old(table[..])
    ensures active.Some? ==> table[..] == MarkListened(old(table[..]), active.value, FinalNote(noteInput), avis)
  {
    active := CurrentAlbum(table[..]);
    if active.Some? {
      var k := active.value;
      var finalNote := FinalNote(noteInput);
      table[k] := table[k].(entry := table[k].entry.(ecoute := true));
      table[k] := table[k].(entry := table[k].entry.(note := Some(finalNote)));
      table[k] := table[k].(entry := table[k].entry.(avis := avis));
    }
  }

  /** After a submission the active album is the one the sidebar showed as next, or none is left. */
  lemma SubmitAdvances(rows: seq<Row>, k: nat, note: int, avis: string)
    requires CurrentAlbum(rows) == Some(k)
    ensures CurrentAlbum(MarkListened(rows, k, note, avis))
         == (match UpNext(rows) case NextAlbum(m) => Some(m) case _ => None)
  {
  }

  lemma MarkListenedPrefix(rows: seq<Row>, k: nat, note: int, avis: string)
    requires k + 1 < |rows|
    ensures MarkListened(rows, k, note, avis)[..|rows| - 1] == MarkListened(rows[..|rows| - 1], k, note, avis)
  {
  }

  /** A submission raises the listened count by exactly one. */
  lemma {:induction false} SubmitCountsOne(rows: seq<Row>, k: nat, note: int, avis: string)
    requires k < |rows| && !rows[k].entry.ecoute
    ensures WatchedCount(MarkListened(rows, k, note, avis)) == WatchedCount(rows) + 1
    decreases |rows|
  {
    var after := MarkListened(rows, k, note, avis);
    var n := |rows|;
    assert WatchedCount(after) == WatchedCount(after[..n - 1]) + (if after[n - 1].entry.ecoute then 1 else 0);
    assert WatchedCount(rows) == WatchedCount(rows[..n - 1]) + (if rows[n - 1].entry.ecoute then 1 else 0);
    if k == n - 1 {
      assert after[..n - 1] == rows[..n - 1];
    } else {
      assert after[n - 1] == rows[n - 1];
      MarkListenedPrefix(rows, k, note, avis);
      SubmitCountsOne(rows[..n - 1], k, note, avis);
    }
  }

  /** The calendar status of a row. */
  datatype Status = Listened | Overdue | Upcoming

  /** Listened rows are green; otherwise a row dated before today is red and any other grey. */
  function Classify(row: Row, today: string): Status
  {
    if row.entry.ecoute then Listened
    else if LexLess(row.date, today) then Overdue
    else Upcoming
  }

  function Color(s: Status): string
  {
    match s
    case Listened => "#28a745"
    case Overdue => "#dc3545"
    case Upcoming => "#6c757d"
  }

  function Title(s: Status, artiste: string): string
  {
    match s
    case Listened => "✅ " + artiste
    case Overdue => "⚠️ " + artiste
    case Upcoming => "🎵 " + artiste
  }

  /** One all-day event of the calendar widget. */
  datatype Event = Event(title: string, start: string, allDay: bool, backgroundColor: string, borderColor: string)

  /** For ISO dates, the string test `row['date'] < today_str` is the chronological test. */
  lemma ClassifyByDate(row: Row, d: Date, today: Date)
    requires Valid(d) && Valid(today) && row.date == IsoDate(d)
    ensures Classify(row, IsoDate(today)) == Listened <==> row.entry.ecoute
    ensures Classify(row, IsoDate(today)) == Overdue <==> !row.entry.ecoute && Before(d, today)
    ensures Classify(row, IsoDate(today)) == Upcoming <==> !row.entry.ecoute && !Before(d, today)
  {
    IsoDateOrder(d, today);
  }

  /** The loop over `df.iterrows()` that appends one event per row. */
  method BuildEvents(rows: seq<Row>, today: Date) returns (events: seq<Event>)
    requires Valid(today)
    ensures |events| == |rows|
    ensures forall i :: 0 <= i < |rows| ==>
      var status := Classify(rows[i], IsoDate(today));
      events[i].start == rows[i].date && events[i].allDay
      && events[i].title == Title(status, rows[i].entry.artiste)
      && events[i].backgroundColor == Color(status) && events[i].borderColor == Color(status)
  {
    events := [];
    for i := 0 to |rows|
      invariant |events| == i
      invariant forall j :: 0 <= j < i ==>
        var status := Classify(rows[j], IsoDate(today));
        events[j] == Event(Title(status, rows[j].entry.artiste), rows[j].date, true, Color(status), Color(status))
    {
      var row := rows[i];
      var todayStr := IsoDate(today);
      var color, title;
      if row.entry.ecoute {
        color, title := "#28a745", "✅ " + row.entry.artiste;
      } else if LexLess(row.date, todayStr) {
        color, title := "#dc3545", "⚠️ " + row.entry.artiste;
      } else {
        color, title := "#6c757d", "🎵 " + row.entry.artiste;
      }
      events := events + [Event(title, row.date, true, color, color)];
    }
  }

  /**
   * On a table loaded from a generated schedule, a row is overdue exactly
   * when it is still to do and its day offset from 2026-01-01 is smaller
   * than today's.
   */
  lemma ScheduledRowStatus(rows: seq<Row>, i: nat, today: Date)
    requires Valid(today) && i < |rows| && i <= MaxOffset && rows[i].date == DayKey(i)
    ensures Classify(rows[i], IsoDate(today)) == Overdue
        <==> !rows[i].entry.ecoute && Ordinal(StartDate) + i < Ordinal(today)
  {
    ClassifyByDate(rows[i], ScheduleDate(i), today);
    OrdinalOrder(ScheduleDate(i), today);
  }
}
