/** The daily valuation history the store keeps beside its collections: every
    write records today's total stock value, at most one entry per day and a
    window of the last thirty days. */
module Valuation {
  import opened Types
  import Text

  /** How many daily entries the history keeps. */
  const HistoryWindow: nat := 30

  /** The `YYYY-MM-DD` date of an ISO-8601 instant: the text before the `T`. */
  function DateOf(now: string): (d: string)
    ensures 'T' !in d
    ensures Text.StartsWith(now, d)
  {
    var parts := Text.Split(now, 'T');
    Text.JoinSplit(now, 'T');
    JoinStartsWithFirst(parts, "T");
    parts[0]
  }

  lemma JoinStartsWithFirst(parts: seq<string>, sep: string)
    requires parts != []
    ensures Text.StartsWith(Text.Join(parts, sep), parts[0])
  {
    if |parts| > 1 {
      assert Text.Join(parts, sep) == parts[0] + (sep + Text.Join(parts[1..], sep));
    }
  }

  /** The history after one snapshot of `value` taken on `today`: the last entry
      is overwritten when it is already dated today; otherwise an entry is
      appended and, past the window, the oldest entry is dropped. */
  function RecordSnapshot(h: seq<HistoryEntry>, today: string, value: real): (r: seq<HistoryEntry>)
    ensures r != [] && r[|r| - 1] == HistoryEntry(today, value)
  {
    if h != [] && h[|h| - 1].date == today then h[..|h| - 1] + [HistoryEntry(today, value)]
    else if |h| + 1 > HistoryWindow then h[1..] + [HistoryEntry(today, value)]
    else h + [HistoryEntry(today, value)]
  }

  /** The store as it is written out: the history gains a snapshot of the
      current stock value; nothing else changes. */
  function Persisted(d: AppData, today: string): (r: AppData)
    ensures r.(history := d.history) == d
    ensures r.history == RecordSnapshot(d.history, today, InventoryValue(d.inventory))
  {
    d.(history := RecordSnapshot(d.history, today, InventoryValue(d.inventory)))
  }

  /** Every entry before the new last one is an entry of the old history, in
      order: the same day overwrites only the value of the last entry, a new day
      keeps all earlier entries, or all but the oldest past the window. */
  lemma SnapshotKeepsEarlierEntries(h: seq<HistoryEntry>, today: string, value: real)
    ensures var r := RecordSnapshot(h, today, value);
      if h != [] && h[|h| - 1].date == today then
        |r| == |h| && r[..|r| - 1] == h[..|h| - 1] && r[|r| - 1] == h[|h| - 1].(value := value)
      else if |h| >= HistoryWindow then
        |r| == |h| && r[..|r| - 1] == h[1..]
      else
        |r| == |h| + 1 && r[..|r| - 1] == h
  {
    var r := RecordSnapshot(h, today, value);
    if h != [] && h[|h| - 1].date == today {
      assert r[..|r| - 1] == h[..|h| - 1];
    } else if |h| >= HistoryWindow {
      assert r[..|r| - 1] == h[1..];
    } else {
      assert r[..|r| - 1] == h;
    }
  }

  /** A snapshot adds at most one entry, and a history within the window
      stays within it. */
  lemma SnapshotBounded(h: seq<HistoryEntry>, today: string, value: real)
    ensures |RecordSnapshot(h, today, value)| <= |h| + 1
    ensures |h| <= HistoryWindow ==> |RecordSnapshot(h, today, value)| <= HistoryWindow
  {
    SnapshotKeepsEarlierEntries(h, today, value);
  }

  /** Two snapshots on the same day leave what the second one alone would:
      one entry per day, holding the latest value. */
  lemma SnapshotSameDay(h: seq<HistoryEntry>, today: string, v1: real, v2: real)
    ensures RecordSnapshot(RecordSnapshot(h, today, v1), today, v2) == RecordSnapshot(h, today, v2)
  {
    var r1 := RecordSnapshot(h, today, v1);
    SnapshotKeepsEarlierEntries(h, today, v1);
    assert r1[..|r1| - 1] + [HistoryEntry(today, v2)] == RecordSnapshot(h, today, v2);
  }

  /** Dates are never repeated by a snapshot: if the history had its dates
      strictly one entry per day, so does the result. */
  predicate DistinctDates(h: seq<HistoryEntry>) {
    forall i, j :: 0 <= i < j < |h| ==> h[i].date != h[j].date
  }

  lemma SnapshotDistinctDates(h: seq<HistoryEntry>, today: string, value: real)
    requires DistinctDates(h)
    requires forall i :: 0 <= i < |h| - 1 ==> h[i].date != today
    ensures DistinctDates(RecordSnapshot(h, today, value))
  {
    var r := RecordSnapshot(h, today, value);
    SnapshotKeepsEarlierEntries(h, today, value);
    if h != [] && h[|h| - 1].date == today {
      forall i, j | 0 <= i < j < |r| ensures r[i].date != r[j].date {
        assert r[i] == r[..|r| - 1][i] || i == |r| - 1;
        if j < |r| - 1 {
          assert r[i] == h[i] && r[j] == h[j];
        } else {
          assert r[i] == h[i];
        }
      }
    } else if |h| >= HistoryWindow {
      forall i, j | 0 <= i < j < |r| ensures r[i].date != r[j].date {
        if j < |r| - 1 {
          assert r[i] == r[..|r| - 1][i] == h[i + 1] && r[j] == r[..|r| - 1][j] == h[j + 1];
        } else {
          assert r[i] == r[..|r| - 1][i] == h[i + 1];
        }
      }
    } else {
      forall i, j | 0 <= i < j < |r| ensures r[i].date != r[j].date {
        if j < |r| - 1 {
          assert r[i] == r[..|r| - 1][i] == h[i] && r[j] == r[..|r| - 1][j] == h[j];
        } else {
          assert r[i] == r[..|r| - 1][i] == h[i];
        }
      }
    }
  }
}
