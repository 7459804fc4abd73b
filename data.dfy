/**
 * Sample queues and the collector that merges them (utils/data.py). Each device thread
 * pushes timestamped readings onto its queue; once per cycle the collector drains every
 * queue up to the cycle's timestamp, averages what it drained ignoring NaN, and keeps the
 * latest values per queue, as one row across all headers, and by header name.
 *
 * Timestamps are integer milliseconds; the wall clock is a parameter.
 */
module Data {
  import opened Wrappers
  import opened Base

  /** One queue entry: the timestamp and the reading. */
  datatype Entry = Entry(ts: int, values: seq<Value>)

  /** A thread-safe FIFO queue of readings; only its contents are modelled. */
  class SampleQueue {
    var items: seq<Entry>

    constructor ()
      ensures items == []
    {
      items := [];
    }
  }

  /** enqueue_data: a missing or zero timestamp is replaced by the current time. */
  method Enqueue(q: SampleQueue, data: seq<Value>, timestamp: Option<int>, now: int)
    modifies q
    ensures q.items == old(q.items) + [Entry(StampOf(timestamp, now), data)]
  {
    q.items := q.items + [Entry(StampOf(timestamp, now), data)];
  }

  function StampOf(timestamp: Option<int>, now: int): (t: int)
    ensures timestamp.Some? && timestamp.value != 0 ==> t == timestamp.value
    ensures timestamp.None? || timestamp.value == 0 ==> t == now
  {
    if timestamp.Some? && timestamp.value != 0 then timestamp.value else now
  }

  // ---------------------------------------------------------------- averaging

  /** The number of leading entries stamped before t: what one drain takes. */
  function PendingCount(items: seq<Entry>, t: int): (n: nat)
    ensures n <= |items|
    ensures forall i :: 0 <= i < n ==> items[i].ts < t
    ensures n == |items| || items[n].ts >= t
  {
    if |items| == 0 || items[0].ts >= t then 0 else 1 + PendingCount(items[1..], t)
  }

  function Readings(items: seq<Entry>): (rows: seq<seq<Value>>)
    ensures |rows| == |items| && forall i :: 0 <= i < |items| ==> rows[i] == items[i].values
  {
    seq(|items|, i requires 0 <= i < |items| => items[i].values)
  }

  /** The sum and the number of the numbers in column j, NaN left out. */
  function ColumnSum(rows: seq<seq<Value>>, j: nat): real
    requires forall r :: r in rows ==> j < |r|
  {
    if |rows| == 0 then 0.0
    else
      var last := rows[|rows| - 1][j];
      ColumnSum(rows[..|rows| - 1], j) + (if last.Num? then last.x else 0.0)
  }

  function ColumnCount(rows: seq<seq<Value>>, j: nat): (n: nat)
    requires forall r :: r in rows ==> j < |r|
    ensures n <= |rows|
  {
    if |rows| == 0 then 0
    else ColumnCount(rows[..|rows| - 1], j) + (if rows[|rows| - 1][j].Num? then 1 else 0)
  }

  /** np.nanmean of one column: the mean of its numbers, NaN when it has none. */
  function ColumnMean(rows: seq<seq<Value>>, j: nat): Value
    requires forall r :: r in rows ==> j < |r|
  {
    var n := ColumnCount(rows, j);
    if n == 0 then NaN else Num(ColumnSum(rows, j) / n as real)
  }

  predicate Rectangular(rows: seq<seq<Value>>) {
    forall i :: 0 <= i < |rows| ==> |rows[i]| == |rows[0]|
  }

  /** np.nanmean(rows, axis=0): a column mean per column; ragged rows are refused. */
  function NanMean(rows: seq<seq<Value>>): (r: Result<seq<Value>, Fault>)
    requires |rows| > 0
    ensures r.Ok? <==> Rectangular(rows)
    ensures r.Err? ==> r.error == ValueError(RaggedRows)
    ensures r.Ok? ==> |r.value| == |rows[0]|
  {
    if !Rectangular(rows) then Err(ValueError(RaggedRows))
    else
      var w := |rows[0]|;
      Ok(Means(rows, w))
  }

  /** The means of columns 0..w-1. */
  function Means(rows: seq<seq<Value>>, w: nat): (r: seq<Value>)
    requires forall r :: r in rows ==> w <= |r|
    ensures |r| == w && forall j :: 0 <= j < w ==> r[j] == ColumnMean(rows, j)
  {
    if w == 0 then [] else Means(rows, w - 1) + [ColumnMean(rows, w - 1)]
  }

  /** A row that is NaN in a column, wherever it sits in the batch, does not move that column's mean. */
  lemma NaNLeftOut(rows: seq<seq<Value>>, i: nat, row: seq<Value>, j: nat)
    requires i <= |rows|
    requires forall r :: r in rows ==> j < |r|
    requires j < |row| && row[j] == NaN
    ensures ColumnMean(rows[..i] + [row] + rows[i..], j) == ColumnMean(rows, j)
  {
    NaNRowLeftOut(rows[..i], rows[i..], row, j);
    assert rows[..i] + rows[i..] == rows;
  }

  /** The NaN row between xs and ys adds nothing to the column's sum or count. */
  lemma {:induction false} NaNRowLeftOut(xs: seq<seq<Value>>, ys: seq<seq<Value>>, row: seq<Value>, j: nat)
    requires forall r :: r in xs ==> j < |r|
    requires forall r :: r in ys ==> j < |r|
    requires j < |row| && row[j] == NaN
    ensures ColumnSum(xs + [row] + ys, j) == ColumnSum(xs + ys, j)
    ensures ColumnCount(xs + [row] + ys, j) == ColumnCount(xs + ys, j)
    decreases |ys|
  {
    var whole := xs + [row] + ys;
    if |ys| == 0 {
      assert whole[..|whole| - 1] == xs;
      assert xs + ys == xs;
    } else {
      var init := ys[..|ys| - 1];
      assert forall r :: r in init ==> r in ys;
      NaNRowLeftOut(xs, init, row, j);
      assert whole[..|whole| - 1] == xs + [row] + init;
      assert (xs + ys)[..|xs + ys| - 1] == xs + init;
    }
  }

  lemma DivideWithinBounds(lo: real, hi: real, n: real, s: real)
    requires n > 0.0 && lo * n <= s <= hi * n
    ensures lo <= s / n <= hi
  {
    assert s / n * n == s;
  }

  /** x added to itself n times. */
  function Repeat(x: real, n: nat): real {
    if n == 0 then 0.0 else Repeat(x, n - 1) + x
  }

  lemma {:induction false} RepeatIsProduct(x: real, n: nat)
    ensures Repeat(x, n) == x * n as real
  {
    if n > 0 {
      RepeatIsProduct(x, n - 1);
      assert x * n as real == x * (n - 1) as real + x;
    }
  }

  /** A lower bound on the numbers of a column, counted once per number, bounds their sum. */
  lemma {:induction false} ColumnSumAtLeast(rows: seq<seq<Value>>, j: nat, lo: real)
    requires forall r :: r in rows ==> j < |r|
    requires forall i :: 0 <= i < |rows| && rows[i][j].Num? ==> lo <= rows[i][j].x
    ensures Repeat(lo, ColumnCount(rows, j)) <= ColumnSum(rows, j)
    decreases |rows|
  {
    if |rows| > 0 {
      var init := rows[..|rows| - 1];
      assert forall r :: r in init ==> r in rows;
      ColumnSumAtLeast(init, j, lo);
    }
  }

  /** An upper bound on the numbers of a column, counted once per number, bounds their sum. */
  lemma {:induction false} ColumnSumAtMost(rows: seq<seq<Value>>, j: nat, hi: real)
    requires forall r :: r in rows ==> j < |r|
    requires forall i :: 0 <= i < |rows| && rows[i][j].Num? ==> rows[i][j].x <= hi
    ensures ColumnSum(rows, j) <= Repeat(hi, ColumnCount(rows, j))
    decreases |rows|
  {
    if |rows| > 0 {
      var init := rows[..|rows| - 1];
      assert forall r :: r in init ==> r in rows;
      ColumnSumAtMost(init, j, hi);
    }
  }

  /** The mean of a column lies between any lower and upper bound of its numbers. */
  lemma MeanWithinBounds(rows: seq<seq<Value>>, j: nat, lo: real, hi: real)
    requires forall r :: r in rows ==> j < |r|
    requires forall i :: 0 <= i < |rows| && rows[i][j].Num? ==> lo <= rows[i][j].x <= hi
    ensures ColumnMean(rows, j).Num? ==> lo <= ColumnMean(rows, j).x <= hi
  {
    var n, sum := ColumnCount(rows, j), ColumnSum(rows, j);
    ColumnSumAtLeast(rows, j, lo);
    ColumnSumAtMost(rows, j, hi);
    if n > 0 {
      AverageWithinBounds(lo, hi, n, sum);
    }
  }

  /** A sum between n copies of lo and n copies of hi, divided by n, lies between lo and hi. */
  lemma AverageWithinBounds(lo: real, hi: real, n: nat, sum: real)
    requires n > 0 && Repeat(lo, n) <= sum <= Repeat(hi, n)
    ensures lo <= sum / n as real <= hi
  {
    RepeatIsProduct(lo, n);
    RepeatIsProduct(hi, n);
    DivideWithinBounds(lo, hi, n as real, sum);
  }

  /** The sum and count of a single row's column. */
  lemma ColumnOfOneRow(row: seq<Value>, j: nat)
    requires j < |row|
    ensures ColumnCount([row], j) == (if row[j].Num? then 1 else 0)
    ensures ColumnSum([row], j) == (if row[j].Num? then row[j].x else 0.0)
  {
    assert [row][..0] == [];
  }

  /** The mean of a single reading is that reading. */
  lemma NanMeanOfOneRow(row: seq<Value>)
    ensures NanMean([row]) == Ok(row)
  {
    forall j | 0 <= j < |row|
      ensures ColumnMean([row], j) == row[j]
    {
      ColumnOfOneRow(row, j);
    }
    assert Rectangular([row]);
    assert Means([row], |row|) == row;
  }

  /** What dequeue_data returns for a queue holding `items`. */
  function Drained(items: seq<Entry>, t: int): (r: Result<Option<seq<Value>>, Fault>)
    ensures PendingCount(items, t) == 0 <==> r == Ok(None)
  {
    var n := PendingCount(items, t);
    if n == 0 then Ok(None)
    else match NanMean(Readings(items[..n]))
      case Err(e) => Err(e)
      case Ok(m) => Ok(Some(m))
  }

  /**
   * dequeue_data: takes entries off the front while they are stamped before t, and returns
   * the NaN-ignoring mean of their readings, or nothing when none was taken.
   */
  method Dequeue(q: SampleQueue, t: int) returns (r: Result<Option<seq<Value>>, Fault>)
    modifies q
    ensures q.items == old(q.items)[PendingCount(old(q.items), t)..]
    ensures r == Drained(old(q.items), t)
  {
    var data := TakePending(q, t);
    if |data| > 0 {
      var m := NanMean(data);
      r := if m.Err? then Err(m.error) else Ok(Some(m.value));
    } else {
      r := Ok(None);
    }
  }

  /** The loop of dequeue_data: pops the entries stamped before t and collects their readings. */
  method TakePending(q: SampleQueue, t: int) returns (data: seq<seq<Value>>)
    modifies q
    ensures q.items == old(q.items)[PendingCount(old(q.items), t)..]
    ensures data == Readings(old(q.items)[..PendingCount(old(q.items), t)])
  {
    ghost var items := q.items;
    ghost var n := PendingCount(items, t);
    data := [];
    while |q.items| > 0
      invariant |data| <= n && q.items == items[|data|..]
      invariant forall i :: 0 <= i < |data| ==> data[i] == items[i].values
      decreases |q.items|
    {
      if q.items[0].ts < t {
        data := data + [q.items[0].values];
        q.items := q.items[1..];
      } else {
        break;
      }
    }
    assert |data| == n;
    assert data == Readings(items[..n]);
  }

  /** A reading enqueued on an empty queue comes back whole from a drain after its timestamp. */
  lemma EnqueueThenDrain(data: seq<Value>, stamp: int, t: int)
    requires stamp < t
    ensures Drained([Entry(stamp, data)], t) == Ok(Some(data))
  {
    var items := [Entry(stamp, data)];
    assert PendingCount(items, t) == 1;
    assert Readings(items[..1]) == [data];
    NanMeanOfOneRow(data);
  }

  // ---------------------------------------------------------------- header layout

  /** header_row: the headers one after another. */
  function Concat(headers: seq<seq<string>>): (row: seq<string>)
  {
    if |headers| == 0 then [] else Concat(headers[..|headers| - 1]) + headers[|headers| - 1]
  }

  /**
   * array_start_idx as written: 0, then the length of each header but the last. It is the
   * running sum only while at most one header precedes.
   */
  function StartOffsetsAsWritten(headers: seq<seq<string>>): seq<nat>
  {
    [0] + seq(if |headers| == 0 then 0 else |headers| - 1, i requires 0 <= i < |headers| - 1 => |headers[i]|)
  }

  /** The corrected array_start_idx: where each header begins in header_row. */
  function StartOffsets(headers: seq<seq<string>>): (s: seq<nat>)
    ensures |s| == |headers|
    ensures forall i :: 0 <= i < |headers| ==> s[i] == |Concat(headers[..i])|
    ensures forall i :: 0 <= i < |headers| ==> s[i] + |headers[i]| <= |Concat(headers)|
  {
    if |headers| == 0 then []
    else
      var init := headers[..|headers| - 1];
      var s := StartOffsets(init) + [|Concat(init)|];
      assert forall i :: 0 <= i < |init| ==> headers[..i] == init[..i];
      s
  }

  lemma {:induction false} ConcatSplit(headers: seq<seq<string>>, i: nat)
    requires i <= |headers|
    ensures Concat(headers) == Concat(headers[..i]) + Concat(headers[i..])
    decreases |headers|
  {
    if i < |headers| {
      var init := headers[..|headers| - 1];
      ConcatSplit(init, i);
      assert init[..i] == headers[..i];
      assert headers[i..][..|headers[i..]| - 1] == init[i..];
    } else {
      assert headers[..i] == headers;
      assert headers[i..] == [];
    }
  }

  lemma ConcatOne(h: seq<string>)
    ensures Concat([h]) == h
  {
    assert [h][..0] == [];
  }

  /** Column j of header i sits at header i's start offset plus j in header_row. */
  lemma StartOffsetsLocate(headers: seq<seq<string>>, i: nat, j: nat)
    requires i < |headers| && j < |headers[i]|
    ensures StartOffsets(headers)[i] + j < |Concat(headers)|
    ensures Concat(headers)[StartOffsets(headers)[i] + j] == headers[i][j]
  {
    ConcatSplit(headers, i);
    ConcatSplit(headers[i..], 1);
    assert headers[i..][..1] == [headers[i]];
    ConcatOne(headers[i]);
  }

  /** Header i ends at or before the start of every later header: the slices do not overlap. */
  lemma StartOffsetsOrdered(headers: seq<seq<string>>, i: nat, k: nat)
    requires i < k < |headers|
    ensures StartOffsets(headers)[i] + |headers[i]| <= StartOffsets(headers)[k]
  {
    var h := headers[..k];
    assert h[..i] == headers[..i];
    assert StartOffsets(h)[i] + |h[i]| <= |Concat(h)|;
  }

  /** As written, three one-column headers give the third queue the second queue's column. */
  lemma StartOffsetsAsWrittenMisplaces()
    ensures StartOffsetsAsWritten([["a"], ["b"], ["c"]]) == [0, 1, 1]
    ensures StartOffsets([["a"], ["b"], ["c"]]) == [0, 1, 2]
    ensures Concat([["a"], ["b"], ["c"]])[StartOffsetsAsWritten([["a"], ["b"], ["c"]])[2]] == "b"
  {
    var h: seq<seq<string>> := [["a"], ["b"], ["c"]];
    assert h[..2] == [["a"], ["b"]] && h[..2][..1] == [["a"]] && h[..1] == [["a"]];
    ConcatOne(["a"]);
    assert Concat(h) == ["a", "b", "c"];
  }

  // ---------------------------------------------------------------- collector state

  /** A cell of the latest row: nothing until its queue first delivers. */
  type Cell = Option<Value>

  /** list[s:e] = data, with Python's clamping of the slice to the list. */
  function SliceAssign(a: seq<Cell>, s: nat, e: nat, data: seq<Value>): (r: seq<Cell>)
    requires s <= e
    ensures e <= |a| && e - s == |data| ==> |r| == |a|
    ensures e <= |a| && e - s == |data| ==> forall k :: s <= k < e ==> r[k] == Some(data[k - s])
    ensures e <= |a| && e - s == |data| ==> forall k :: 0 <= k < |a| && !(s <= k < e) ==> r[k] == a[k]
  {
    var s' := if s <= |a| then s else |a|;
    var e' := if e <= |a| then e else |a|;
    a[..s'] + seq(|data|, k requires 0 <= k < |data| => Some(data[k])) + a[e'..]
  }

  /** dict.update(zip(keys, vals)): pairs in order, up to the shorter list. */
  function ZipUpdate(m: map<string, Cell>, keys: seq<string>, vals: seq<Value>): (r: map<string, Cell>)
    ensures forall k :: k in r <==> k in m || k in keys[..if |keys| <= |vals| then |keys| else |vals|]
    decreases |keys|
  {
    if |keys| == 0 || |vals| == 0 then m
    else ZipUpdate(m[keys[0] := Some(vals[0])], keys[1..], vals[1..])
  }

  /** With no key repeated, each zipped key maps to its own value and other keys keep theirs. */
  lemma {:induction false} ZipUpdateValues(m: map<string, Cell>, keys: seq<string>, vals: seq<Value>)
    requires forall a, b :: 0 <= a < b < |keys| ==> keys[a] != keys[b]
    ensures forall j :: 0 <= j < |keys| && j < |vals| ==> ZipUpdate(m, keys, vals)[keys[j]] == Some(vals[j])
    ensures forall k :: k in m && k !in keys ==> ZipUpdate(m, keys, vals)[k] == m[k]
    decreases |keys|
  {
    if |keys| > 0 && |vals| > 0 {
      var m' := m[keys[0] := Some(vals[0])];
      ZipUpdateValues(m', keys[1..], vals[1..]);
      forall j | 0 < j < |keys| && j < |vals|
        ensures ZipUpdate(m, keys, vals)[keys[j]] == Some(vals[j])
      {
        assert keys[1..][j - 1] == keys[j];
      }
      assert keys[0] !in keys[1..];
    }
  }

  /** Every name of every header is a name of header_row. */
  lemma HeaderInRow(headers: seq<seq<string>>, i: nat, j: nat)
    requires i < |headers| && j < |headers[i]|
    ensures headers[i][j] in Concat(headers)
  {
    StartOffsetsLocate(headers, i, j);
  }

  /** What the collector holds between cycles. */
  datatype Snapshot = Snapshot(queueData: seq<Option<seq<Value>>>, arrayData: seq<Cell>, dictData: map<string, Cell>)

  /** update_data on the state: the queue's slot, its slice of the row, its names. */
  function Apply(s: Snapshot, i: nat, data: seq<Value>, starts: seq<nat>, headers: seq<seq<string>>): Snapshot
    requires i < |s.queueData| && i < |starts| && i < |headers|
  {
    Snapshot(s.queueData[i := Some(data)],
             SliceAssign(s.arrayData, starts[i], starts[i] + |data|, data),
             ZipUpdate(s.dictData, headers[i], data))
  }

  /**
   * The queue loop of collect_data from queue i on: a queue with nothing pending leaves the
   * state alone, one with a mean updates it, and a failing mean ends the cycle.
   */
  function CollectFrom(s: Snapshot, pending: seq<seq<Entry>>, t: int, i: nat, starts: seq<nat>, headers: seq<seq<string>>)
    : (r: Result<Snapshot, Fault>)
    requires |pending| == |s.queueData| == |starts| == |headers| && i <= |pending|
    ensures r.Ok? ==> |r.value.queueData| == |s.queueData|
    decreases |pending| - i
  {
    if i == |pending| then Ok(s)
    else
      match Drained(pending[i], t)
      case Err(e) => Err(e)
      case Ok(None) => CollectFrom(s, pending, t, i + 1, starts, headers)
      case Ok(Some(d)) => CollectFrom(Apply(s, i, d, starts, headers), pending, t, i + 1, starts, headers)
  }

  /**
   * After a cycle each queue's latest reading is the mean just drained from it, or, when
   * nothing was pending, the one it had before: the last valid data is carried forward.
   */
  lemma {:induction false} CollectCarriesForward(s: Snapshot, pending: seq<seq<Entry>>, t: int, i: nat,
                                                 starts: seq<nat>, headers: seq<seq<string>>, k: nat)
    requires |pending| == |s.queueData| == |starts| == |headers| && i <= k < |pending|
    requires CollectFrom(s, pending, t, i, starts, headers).Ok?
    ensures Drained(pending[k], t).Ok?
    ensures CollectFrom(s, pending, t, i, starts, headers).value.queueData[k]
         == if Drained(pending[k], t) == Ok(None) then s.queueData[k] else Some(Drained(pending[k], t).value.value)
    decreases |pending| - i
  {
    var d := Drained(pending[i], t);
    if i < k {
      var next := if d == Ok(None) then s else Apply(s, i, d.value.value, starts, headers);
      CollectCarriesForward(next, pending, t, i + 1, starts, headers, k);
    } else if d.Ok? && d.value.Some? {
      CollectKeepsSlot(Apply(s, i, d.value.value, starts, headers), pending, t, i + 1, starts, headers, k);
    } else {
      CollectKeepsSlot(s, pending, t, i + 1, starts, headers, k);
    }
  }

  /** Queues after i do not touch the slot of queue k < i. */
  lemma {:induction false} CollectKeepsSlot(s: Snapshot, pending: seq<seq<Entry>>, t: int, i: nat,
                                            starts: seq<nat>, headers: seq<seq<string>>, k: nat)
    requires |pending| == |s.queueData| == |starts| == |headers| && k < i <= |pending|
    requires CollectFrom(s, pending, t, i, starts, headers).Ok?
    ensures CollectFrom(s, pending, t, i, starts, headers).value.queueData[k] == s.queueData[k]
    decreases |pending| - i
  {
    if i < |pending| {
      var d := Drained(pending[i], t);
      var next := if d == Ok(None) then s else Apply(s, i, d.value.value, starts, headers);
      CollectKeepsSlot(next, pending, t, i + 1, starts, headers, k);
    }
  }

  lemma CollectStep(s: Snapshot, pending: seq<seq<Entry>>, t: int, i: nat, starts: seq<nat>, headers: seq<seq<string>>)
    requires |pending| == |s.queueData| == |starts| == |headers| && i < |pending|
    ensures Drained(pending[i], t).Err? ==> CollectFrom(s, pending, t, i, starts, headers) == Err(Drained(pending[i], t).error)
    ensures Drained(pending[i], t) == Ok(None) ==> CollectFrom(s, pending, t, i, starts, headers) == CollectFrom(s, pending, t, i + 1, starts, headers)
    ensures Drained(pending[i], t).Ok? && Drained(pending[i], t).value.Some? ==>
      CollectFrom(s, pending, t, i, starts, headers) == CollectFrom(Apply(s, i, Drained(pending[i], t).value.value, starts, headers), pending, t, i + 1, starts, headers)
  {
  }

  /** Every queued reading has one value per name of its queue's header. */
  predicate Sized(pending: seq<seq<Entry>>, headers: seq<seq<string>>) {
    && |pending| == |headers|
    && forall i, n :: 0 <= i < |pending| && 0 <= n < |pending[i]| ==> |pending[i][n].values| == |headers[i]|
  }

  /** A mean drained from readings of width w has width w. */
  lemma DrainedWidth(items: seq<Entry>, t: int, w: nat)
    requires forall n :: 0 <= n < |items| ==> |items[n].values| == w
    requires Drained(items, t).Ok? && Drained(items, t).value.Some?
    ensures |Drained(items, t).value.value| == w
  {
    var rows := Readings(items[..PendingCount(items, t)]);
    assert rows[0] == items[0].values;
  }

  /**
   * A cycle over queues whose readings fit their headers keeps the latest row at one cell
   * per header name, so save_data's length check holds after it as before it.
   */
  lemma {:induction false} CollectKeepsWidth(s: Snapshot, pending: seq<seq<Entry>>, t: int, i: nat,
                                             starts: seq<nat>, headers: seq<seq<string>>)
    requires |pending| == |s.queueData| == |starts| == |headers| && i <= |pending|
    requires |s.arrayData| == |Concat(headers)| && starts == StartOffsets(headers) && Sized(pending, headers)
    ensures CollectFrom(s, pending, t, i, starts, headers).Ok? ==>
      |CollectFrom(s, pending, t, i, starts, headers).value.arrayData| == |Concat(headers)|
    decreases |pending| - i
  {
    if i < |pending| {
      var d := Drained(pending[i], t);
      if d == Ok(None) {
        CollectKeepsWidth(s, pending, t, i + 1, starts, headers);
      } else if d.Ok? {
        DrainedWidth(pending[i], t, |headers[i]|);
        CollectKeepsWidth(Apply(s, i, d.value.value, starts, headers), pending, t, i + 1, starts, headers);
      }
    }
  }

  /**
   * After a cycle, a queue with nothing pending still has its own cells of the latest row:
   * no other queue's reading lands in its slice, so its last values are carried forward.
   */
  lemma {:induction false} CollectKeepsSilentSlice(s: Snapshot, pending: seq<seq<Entry>>, t: int, i: nat,
                                                   starts: seq<nat>, headers: seq<seq<string>>, k: nat)
    requires |pending| == |s.queueData| == |starts| == |headers| && i <= |pending| && k < |pending|
    requires |s.arrayData| == |Concat(headers)| && starts == StartOffsets(headers) && Sized(pending, headers)
    requires Drained(pending[k], t) == Ok(None)
    ensures CollectFrom(s, pending, t, i, starts, headers).Ok? ==>
      && |CollectFrom(s, pending, t, i, starts, headers).value.arrayData| == |s.arrayData|
      && forall p :: starts[k] <= p < starts[k] + |headers[k]| ==>
           CollectFrom(s, pending, t, i, starts, headers).value.arrayData[p] == s.arrayData[p]
    decreases |pending| - i
  {
    CollectKeepsWidth(s, pending, t, i, starts, headers);
    if i < |pending| {
      var d := Drained(pending[i], t);
      if d == Ok(None) {
        CollectKeepsSilentSlice(s, pending, t, i + 1, starts, headers, k);
      } else if d.Ok? {
        var v := d.value.value;
        DrainedWidth(pending[i], t, |headers[i]|);
        if i < k {
          StartOffsetsOrdered(headers, i, k);
        } else {
          StartOffsetsOrdered(headers, k, i);
        }
        var next := Apply(s, i, v, starts, headers);
        assert forall p :: starts[k] <= p < starts[k] + |headers[k]| ==> next.arrayData[p] == s.arrayData[p];
        CollectKeepsSilentSlice(next, pending, t, i + 1, starts, headers, k);
      }
    }
  }

  /** What each queue holds once collect_data has drained it. */
  function Remaining(pending: seq<seq<Entry>>, t: int): (rest: seq<seq<Entry>>)
    ensures |rest| == |pending|
    ensures forall i :: 0 <= i < |pending| ==> rest[i] == pending[i][PendingCount(pending[i], t)..]
  {
    if |pending| == 0 then []
    else Remaining(pending[..|pending| - 1], t) + [pending[|pending| - 1][PendingCount(pending[|pending| - 1], t)..]]
  }

  /** A row of the CSV log: the header line, or a timestamp and the latest row. */
  datatype LogRow = HeaderLine(names: seq<string>) | DataLine(ms: int, cells: seq<Cell>)

  /** save_data's checks: the writer, an empty row, the row length. */
  function SaveFault(hasWriter: bool, data: seq<Cell>, width: nat): (f: Option<Fault>)
    ensures f.None? <==> hasWriter && |data| == width && width > 0
  {
    if !hasWriter then Some(ValueError(WriterMissing))
    else if |data| == 0 then Some(ValueError(EmptyData))
    else if |data| != width then Some(ValueError(RowLengthMismatch))
    else None
  }

  /**
   * DataCollector: the queues it drains and, per queue, where its values go in the latest
   * row (array_start_idx, corrected to the running sum) and under which names.
   */
  class DataCollector {
    const queues: seq<SampleQueue>
    const headers: seq<seq<string>>
    const headerRow: seq<string>
    const starts: seq<nat>
    const save: bool
    const hasWriter: bool
    var latestQueueData: seq<Option<seq<Value>>>
    var latestArrayData: seq<Cell>
    var latestDictData: map<string, Cell>
    var log: seq<LogRow>

    ghost predicate Valid()
      reads this
    {
      && |headers| == |queues| && |queues| > 0
      && (forall i, j :: 0 <= i < j < |queues| ==> queues[i] != queues[j])
      && headerRow == Concat(headers)
      && starts == StartOffsets(headers)
      && |latestQueueData| == |queues|
      && (forall k :: k in latestDictData <==> k in headerRow)
      && hasWriter == save
      && (hasWriter ==> |log| > 0 && log[0] == HeaderLine(["time"] + headerRow))
    }

    /** The latest row has one cell per header name. */
    ghost predicate Aligned()
      reads this
    {
      |latestArrayData| == |headerRow|
    }

    function Snap(): Snapshot
      reads this
    {
      Snapshot(latestQueueData, latestArrayData, latestDictData)
    }

    /** The contents of the queues, in queue order. */
    function Pending(): (p: seq<seq<Entry>>)
      reads this, queues
      ensures |p| == |queues|
    {
      seq(|queues|, i reads queues requires 0 <= i < |queues| => queues[i].items)
    }

    constructor (queues: seq<SampleQueue>, headers: seq<seq<string>>, save: bool)
      requires |headers| == |queues| && |queues| > 0
      requires forall i, j :: 0 <= i < j < |queues| ==> queues[i] != queues[j]
      ensures Valid() && Aligned()
      ensures this.queues == queues && this.headers == headers && this.save == save
      ensures latestQueueData == seq(|queues|, _ => None)
      ensures latestArrayData == seq(|headerRow|, _ => None)
      ensures forall k :: k in latestDictData ==> latestDictData[k] == None
      ensures log == if save then [HeaderLine(["time"] + headerRow)] else []
    {
      this.queues := queues;
      this.headers := headers;
      headerRow := Concat(headers);
      starts := StartOffsets(headers);
      this.save := save;
      hasWriter := save;
      latestQueueData := seq(|queues|, _ => None);
      latestArrayData := seq(|Concat(headers)|, _ => None);
      latestDictData := map k | k in Concat(headers) :: None;
      log := if save then [HeaderLine(["time"] + Concat(headers))] else [];
    }

    /**
     * DataCollector.__init__: the number of queues and headers must agree, the first queue
     * must exist, and a non-empty first queue fails on len() of a Queue.
     */
    static method Create(queues: seq<SampleQueue>, headers: seq<seq<string>>, save: bool) returns (r: Result<DataCollector, Fault>)
      requires forall i, j :: 0 <= i < j < |queues| ==> queues[i] != queues[j]
      ensures |queues| != |headers| ==> r == Err(AssertionError(QueueHeaderMismatch))
      ensures |queues| == |headers| == 0 ==> r == Err(IndexError)
      ensures |queues| == |headers| > 0 && |queues[0].items| > 0 ==> r == Err(TypeError)
      ensures |queues| == |headers| > 0 && |queues[0].items| == 0 ==>
        r.Ok? && fresh(r.value) && r.value.Valid() && r.value.Aligned()
        && r.value.queues == queues && r.value.headers == headers && r.value.save == save
    {
      if |queues| != |headers| {
        return Err(AssertionError(QueueHeaderMismatch));
      }
      if |queues| == 0 {
        return Err(IndexError);
      }
      if |queues[0].items| > 0 {
        return Err(TypeError);
      }
      var c := new DataCollector(queues, headers, save);
      r := Ok(c);
    }

    /** update_queue_data */
    method UpdateQueueData(i: nat, data: seq<Value>)
      requires Valid() && i < |queues|
      modifies this
      ensures Valid()
      ensures latestQueueData == old(latestQueueData)[i := Some(data)]
      ensures latestArrayData == old(latestArrayData) && latestDictData == old(latestDictData) && log == old(log)
    {
      latestQueueData := latestQueueData[i := Some(data)];
    }

    /**
     * update_array_data: the reading replaces the queue's slice of the latest row; when it
     * has one value per name of the queue's header, each value lands under its own name.
     */
    method UpdateArrayData(i: nat, data: seq<Value>)
      requires Valid() && i < |queues|
      modifies this
      ensures Valid()
      ensures latestArrayData == SliceAssign(old(latestArrayData), starts[i], starts[i] + |data|, data)
      ensures old(Aligned()) && |data| == |headers[i]| ==>
        && Aligned()
        && forall j :: 0 <= j < |data| ==>
             headerRow[starts[i] + j] == headers[i][j] && latestArrayData[starts[i] + j] == Some(data[j])
      ensures latestQueueData == old(latestQueueData) && latestDictData == old(latestDictData) && log == old(log)
    {
      if Aligned() && |data| == |headers[i]| {
        if |data| > 0 {
          StartOffsetsLocate(headers, i, |data| - 1);
        }
        forall j | 0 <= j < |data|
          ensures headerRow[starts[i] + j] == headers[i][j]
        {
          StartOffsetsLocate(headers, i, j);
        }
      }
      latestArrayData := SliceAssign(latestArrayData, starts[i], starts[i] + |data|, data);
    }

    /**
     * update_dict_data: the header's names zipped with the reading update the map; with no
     * name repeated in the header, each name maps to its own value.
     */
    method UpdateDictData(i: nat, data: seq<Value>)
      requires Valid() && i < |queues|
      modifies this
      ensures Valid()
      ensures latestDictData == ZipUpdate(old(latestDictData), headers[i], data)
      ensures latestQueueData == old(latestQueueData) && latestArrayData == old(latestArrayData) && log == old(log)
    {
      forall j | 0 <= j < |headers[i]|
        ensures headers[i][j] in headerRow
      {
        HeaderInRow(headers, i, j);
      }
      latestDictData := ZipUpdate(latestDictData, headers[i], data);
    }

    /** update_data: all three views of the latest data. */
    method UpdateData(i: nat, data: seq<Value>)
      requires Valid() && i < |queues|
      modifies this
      ensures Valid()
      ensures Snap() == Apply(old(Snap()), i, data, starts, headers)
      ensures log == old(log)
    {
      UpdateQueueData(i, data);
      UpdateArrayData(i, data);
      UpdateDictData(i, data);
    }

    /** get_latest_data: the latest row, by value. */
    method GetLatestData() returns (row: seq<Cell>)
      requires Valid()
      ensures row == latestArrayData
    {
      row := latestArrayData;
    }

    /** get_latest_dict_data: the latest values by name, by value; every header name is present. */
    method GetLatestDictData() returns (d: map<string, Cell>)
      requires Valid()
      ensures d == latestDictData
      ensures forall k :: k in headerRow <==> k in d
    {
      d := latestDictData;
    }

    /** save_data: appends the timestamp and the row to the log, after its checks. */
    method SaveData(data: seq<Cell>, t: int) returns (r: Outcome<Fault>)
      requires Valid()
      modifies this
      ensures Valid() && Snap() == old(Snap())
      ensures SaveFault(hasWriter, data, |headerRow|).Some? ==>
        r == Fail(SaveFault(hasWriter, data, |headerRow|).value) && log == old(log)
      ensures SaveFault(hasWriter, data, |headerRow|).None? ==> r == Pass && log == old(log) + [DataLine(t, data)]
    {
      var f := SaveFault(hasWriter, data, |headerRow|);
      if f.Some? {
        return Fail(f.value);
      }
      log := log + [DataLine(t, data)];
      r := Pass;
    }

    /** One pass of the queue loop: drain queue i and apply its mean, if any. */
    method DrainOne(i: nat, t: int) returns (d: Result<Option<seq<Value>>, Fault>)
      requires Valid() && i < |queues|
      modifies this, queues[i]
      ensures Valid() && log == old(log)
      ensures d == Drained(old(queues[i].items), t)
      ensures queues[i].items == old(queues[i].items)[PendingCount(old(queues[i].items), t)..]
      ensures d.Ok? && d.value.Some? ==> Snap() == Apply(old(Snap()), i, d.value.value, starts, headers)
      ensures !(d.Ok? && d.value.Some?) ==> Snap() == old(Snap())
    {
      d := Dequeue(queues[i], t);
      if d.Ok? && d.value.Some? {
        UpdateData(i, d.value.value);
      }
    }

    /** The queue loop of collect_data: each queue drained up to t in order, the state updated. */
    method DrainAll(t: int) returns (r: Outcome<Fault>)
      requires Valid()
      modifies this, queues
      ensures Valid() && log == old(log)
      ensures CollectFrom(old(Snap()), old(Pending()), t, 0, starts, headers).Err? ==>
        r == Fail(CollectFrom(old(Snap()), old(Pending()), t, 0, starts, headers).error)
      ensures CollectFrom(old(Snap()), old(Pending()), t, 0, starts, headers).Ok? ==>
        && r == Pass
        && Snap() == CollectFrom(old(Snap()), old(Pending()), t, 0, starts, headers).value
        && (forall k :: 0 <= k < |queues| ==> queues[k].items == Remaining(old(Pending()), t)[k])
        && (old(Aligned()) && Sized(old(Pending()), headers) ==> Aligned())
    {
      ghost var pending := Pending();
      ghost var rest := Remaining(pending, t);
      ghost var total := CollectFrom(Snap(), pending, t, 0, starts, headers);
      if Aligned() && Sized(pending, headers) {
        CollectKeepsWidth(Snap(), pending, t, 0, starts, headers);
      }
      for i := 0 to |queues|
        invariant Progress(t, i, pending, rest, total) && log == old(log)
      {
        r := DrainStep(t, i, pending, rest, total);
        if r.Fail? {
          return;
        }
      }
      r := Pass;
    }

    /**
     * The queue loop after queue i-1: the queues before i hold what draining left, the
     * others what they held, and the loop's outcome is what the rest of it makes of the state.
     */
    ghost predicate Progress(t: int, i: nat, pending: seq<seq<Entry>>, rest: seq<seq<Entry>>, total: Result<Snapshot, Fault>)
      reads this, queues
    {
      && Valid() && i <= |queues| == |pending| == |rest|
      && (forall k :: 0 <= k < |queues| ==> rest[k] == pending[k][PendingCount(pending[k], t)..])
      && (forall k :: 0 <= k < i ==> queues[k].items == rest[k])
      && (forall k :: i <= k < |queues| ==> queues[k].items == pending[k])
      && total == CollectFrom(Snap(), pending, t, i, starts, headers)
    }

    /** One pass of the queue loop. */
    method DrainStep(t: int, i: nat, ghost pending: seq<seq<Entry>>, ghost rest: seq<seq<Entry>>,
                     ghost total: Result<Snapshot, Fault>) returns (r: Outcome<Fault>)
      requires Progress(t, i, pending, rest, total) && i < |queues|
      modifies this, queues[i]
      ensures Valid() && log == old(log)
      ensures r.Fail? ==> total == Err(r.error)
      ensures r.Pass? ==> Progress(t, i + 1, pending, rest, total)
    {
      CollectStep(Snap(), pending, t, i, starts, headers);
      var d := DrainOne(i, t);
      r := if d.Err? then Fail(d.error) else Pass;
    }

    /**
     * collect_data after the wait: the queue loop, then the latest row logged when saving.
     */
    method CollectData(t: int) returns (r: Outcome<Fault>)
      requires Valid()
      modifies this, queues
      ensures Valid()
      ensures CollectFrom(old(Snap()), old(Pending()), t, 0, starts, headers).Err? ==>
        r == Fail(CollectFrom(old(Snap()), old(Pending()), t, 0, starts, headers).error)
      ensures CollectFrom(old(Snap()), old(Pending()), t, 0, starts, headers).Ok? ==>
        && Snap() == CollectFrom(old(Snap()), old(Pending()), t, 0, starts, headers).value
        && (forall k :: 0 <= k < |queues| ==> queues[k].items == Remaining(old(Pending()), t)[k])
        && (!save ==> r == Pass && log == old(log))
        && (save && SaveFault(hasWriter, latestArrayData, |headerRow|).Some? ==>
              r == Fail(SaveFault(hasWriter, latestArrayData, |headerRow|).value) && log == old(log))
        && (save && SaveFault(hasWriter, latestArrayData, |headerRow|).None? ==>
              r == Pass && log == old(log) + [DataLine(t, latestArrayData)])
        && (old(Aligned()) && Sized(old(Pending()), headers) ==> Aligned())
        && (save && |headerRow| > 0 && old(Aligned()) && Sized(old(Pending()), headers) ==>
              r == Pass && log == old(log) + [DataLine(t, latestArrayData)])
    {
      r := DrainAll(t);
      if r.Fail? {
        return;
      }
      if save {
        r := SaveData(latestArrayData, t);
      }
    }
  }
}
