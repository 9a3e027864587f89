/**
 * History entries, the shared list of highlight marks, their expiry filter and
 * the rendering of a history list (App.js, addHistoryEntry and renderHistory).
 */
module Highlights {

  datatype Option<T> = None | Some(value: T)

  /** The locale-formatted time string taken when a connectivity event
      arrives. The model never looks inside it: it is only compared. */
  type Timestamp = string

  datatype Status = Connected | Disconnected

  /** One line of a history list. */
  datatype Entry = Entry(status: Status, timestamp: Timestamp)

  /** The colours the history view uses: green and red for a highlighted
      entry, and Neutral for the plain text colour '#333'. */
  datatype Color = Green | Red | Neutral

  /** A highlight mark is the entry spread into a record together with the
      colour it was registered with. */
  datatype Mark = Mark(status: Status, timestamp: Timestamp, color: Color)

  /** The colour the listener passes along with an entry of each status. */
  function StatusColor(s: Status): Color
  {
    match s
    case Connected => Green
    case Disconnected => Red
  }

  /** The record `{ ...entry, color }`. */
  function MarkOf(e: Entry, color: Color): Mark
  {
    Mark(e.status, e.timestamp, color)
  }

  /** Every mark carries the colour of its own status. */
  ghost predicate ColouredByStatus(marks: seq<Mark>)
  {
    forall i :: 0 <= i < |marks| ==> marks[i].color == StatusColor(marks[i].status)
  }

  // ---------------------------------------------------------------------------
  // Expiry: the filter run when a highlight's 10000 ms timer elapses
  // ---------------------------------------------------------------------------

  /** The marks left after expiring the highlight of timestamp `ts`: every mark
      with that timestamp goes, whichever history it was registered for. */
  function WithoutTimestamp(marks: seq<Mark>, ts: Timestamp): (r: seq<Mark>)
    ensures |r| <= |marks|
    ensures forall i :: 0 <= i < |r| ==> r[i].timestamp != ts
    ensures forall m :: m in r ==> m in marks
    ensures forall m :: m in marks && m.timestamp != ts ==> m in r
  {
    if marks == [] then []
    else if marks[0].timestamp == ts then WithoutTimestamp(marks[1..], ts)
    else [marks[0]] + WithoutTimestamp(marks[1..], ts)
  }

  /** Expiry keeps the surviving marks in their order: filtering a
      concatenation filters each part. */
  lemma {:induction false} WithoutConcat(a: seq<Mark>, b: seq<Mark>, ts: Timestamp)
    ensures WithoutTimestamp(a + b, ts) == WithoutTimestamp(a, ts) + WithoutTimestamp(b, ts)
  {
    if a == [] {
      assert a + b == b;
    } else {
      assert (a + b)[0] == a[0];
      assert (a + b)[1..] == a[1..] + b;
      WithoutConcat(a[1..], b, ts);
    }
  }

  /** Expiry removes exactly the marks of the timestamp: every other mark
      keeps its number of occurrences. */
  lemma {:induction false} WithoutCounts(marks: seq<Mark>, ts: Timestamp, m: Mark)
    ensures multiset(WithoutTimestamp(marks, ts))[m] ==
            if m.timestamp == ts then 0 else multiset(marks)[m]
  {
    if marks != [] {
      WithoutCounts(marks[1..], ts, m);
      assert marks == [marks[0]] + marks[1..];
    }
  }

  /** Expiring a timestamp no mark carries changes nothing. */
  lemma {:induction false} WithoutAbsent(marks: seq<Mark>, ts: Timestamp)
    requires forall i :: 0 <= i < |marks| ==> marks[i].timestamp != ts
    ensures WithoutTimestamp(marks, ts) == marks
  {
    if marks != [] {
      WithoutAbsent(marks[1..], ts);
    }
  }

  /** Expiring the same timestamp twice is the same as expiring it once. */
  lemma WithoutIdempotent(marks: seq<Mark>, ts: Timestamp)
    ensures WithoutTimestamp(WithoutTimestamp(marks, ts), ts) == WithoutTimestamp(marks, ts)
  {
    WithoutAbsent(WithoutTimestamp(marks, ts), ts);
  }

  /** Expiry keeps every mark coloured by its status. */
  lemma WithoutKeepsColours(marks: seq<Mark>, ts: Timestamp)
    requires ColouredByStatus(marks)
    ensures ColouredByStatus(WithoutTimestamp(marks, ts))
  {
    var r := WithoutTimestamp(marks, ts);
    forall i | 0 <= i < |r| ensures r[i].color == StatusColor(r[i].status) {
      assert r[i] in marks;
    }
  }

  // ---------------------------------------------------------------------------
  // Rendering
  // ---------------------------------------------------------------------------

  /** `some`: whether any mark has timestamp `ts`. */
  predicate IsHighlighted(marks: seq<Mark>, ts: Timestamp)
  {
    exists i :: 0 <= i < |marks| && marks[i].timestamp == ts
  }

  /** `find`: the first mark with timestamp `ts`, if there is one. */
  function Find(marks: seq<Mark>, ts: Timestamp): (r: Option<Mark>)
    ensures r.Some? <==> IsHighlighted(marks, ts)
    ensures r.Some? ==> exists i :: 0 <= i < |marks| && marks[i] == r.value &&
                          marks[i].timestamp == ts &&
                          forall j :: 0 <= j < i ==> marks[j].timestamp != ts
  {
    if marks == [] then None
    else if marks[0].timestamp == ts then Some(marks[0])
    else
      var r := Find(marks[1..], ts);
      assert r.Some? ==> exists i :: 0 <= i < |marks| && marks[i] == r.value &&
                          marks[i].timestamp == ts &&
                          forall j :: 0 <= j < i ==> marks[j].timestamp != ts by {
        if r.Some? {
          var i :| 0 <= i < |marks[1..]| && marks[1..][i] == r.value &&
                   marks[1..][i].timestamp == ts &&
                   forall j :: 0 <= j < i ==> marks[1..][j].timestamp != ts;
          assert marks[i + 1] == r.value;
          assert forall j :: 0 <= j < i + 1 ==> marks[j].timestamp != ts by {
            forall j | 0 <= j < i + 1 ensures marks[j].timestamp != ts {
              if j > 0 { assert marks[j] == marks[1..][j - 1]; }
            }
          }
        }
      }
      assert IsHighlighted(marks, ts) ==> IsHighlighted(marks[1..], ts) by {
        if IsHighlighted(marks, ts) {
          var i :| 0 <= i < |marks| && marks[i].timestamp == ts;
          assert marks[1..][i - 1].timestamp == ts;
        }
      }
      r
  }

  /** The text colour of a history row for timestamp `ts`: the colour of the
      first mark with that timestamp, or '#333' when none has it. */
  function RowColor(marks: seq<Mark>, ts: Timestamp): (c: Color)
    ensures !IsHighlighted(marks, ts) ==> c == Neutral
    ensures IsHighlighted(marks, ts) ==>
              exists i :: 0 <= i < |marks| && marks[i].timestamp == ts && c == marks[i].color &&
                          forall j :: 0 <= j < i ==> marks[j].timestamp != ts
  {
    if IsHighlighted(marks, ts) then Find(marks, ts).value.color else Neutral
  }

  /** One rendered line: the text `timestamp: status` in a colour. */
  datatype Row = Row(timestamp: Timestamp, status: Status, color: Color)

  /** The rows shown for a history list, newest first. */
  function RenderHistory(history: seq<Entry>, marks: seq<Mark>): (rows: seq<Row>)
    ensures |rows| == |history|
    ensures forall i :: 0 <= i < |history| ==>
              rows[i].timestamp == history[i].timestamp && rows[i].status == history[i].status &&
              rows[i].color == RowColor(marks, history[i].timestamp)
  {
    if history == [] then []
    else
      [Row(history[0].timestamp, history[0].status, RowColor(marks, history[0].timestamp))]
      + RenderHistory(history[1..], marks)
  }

  /** When marks are coloured by status and no mark of another status shares
      the entry's timestamp, a highlighted row shows the colour of its own
      status (green or red) and any other row the plain colour. */
  lemma RenderedColour(history: seq<Entry>, marks: seq<Mark>, i: nat)
    requires ColouredByStatus(marks)
    requires i < |history|
    requires forall j :: 0 <= j < |marks| && marks[j].timestamp == history[i].timestamp ==>
               marks[j].status == history[i].status
    ensures RenderHistory(history, marks)[i].color ==
            if IsHighlighted(marks, history[i].timestamp) then StatusColor(history[i].status) else Neutral
  {
  }

  /** After the highlight of `ts` expires, every row with that timestamp is
      shown in the plain colour. */
  lemma ExpiredRowsPlain(history: seq<Entry>, marks: seq<Mark>, ts: Timestamp, i: nat)
    requires i < |history| && history[i].timestamp == ts
    ensures RenderHistory(history, WithoutTimestamp(marks, ts))[i].color == Neutral
  {
  }
}
