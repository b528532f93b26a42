/**
 The logger object: one flat array that holds the ring row after row, the indices that go
 round it, and the file the writer appends to. Each method is what one thread does when the
 other is not in the middle of a call; `LogRing` is the same ring with every interleaving.
 */
module CsvLogger {
  import opened Basics
  import opened LogRing
  import opened CsvRoundTrip

  // ---- rows of a flat array ----

  /** A slot's cells lie inside the array. */
  lemma SlotInside(i: nat, width: nat, capacity: nat)
    requires i < capacity
    ensures i * width + width <= capacity * width
  {
    assert (i + 1) * width <= capacity * width;
  }

  /** Different slots share no cell. */
  lemma SlotsApart(i: nat, j: nat, width: nat)
    requires i < j
    ensures i * width + width <= j * width
  {
    SlotInside(i, width, j);
  }

  function SlotAt(cells: seq<Cell>, width: nat, i: nat): Row
    requires i * width + width <= |cells|
  {
    cells[i * width..i * width + width]
  }

  /** The slots of the flat array, the first `n` of them. */
  function Slots(cells: seq<Cell>, width: nat, n: nat): (slots: seq<Row>)
    requires |cells| >= n * width
    ensures |slots| == n && forall i :: 0 <= i < n ==> |slots[i]| == width
  {
    if n == 0 then []
    else
      SlotInside(n - 1, width, n);
      Slots(cells, width, n - 1) + [SlotAt(cells, width, n - 1)]
  }

  lemma {:induction false} SlotsHold(cells: seq<Cell>, width: nat, n: nat, i: nat)
    requires |cells| >= n * width && i < n
    ensures i * width + width <= |cells| && Slots(cells, width, n)[i] == SlotAt(cells, width, i)
  {
    SlotInside(n - 1, width, n);
    if i + 1 < n {
      SlotInside(n - 1, width, n);
      SlotsHold(cells, width, n - 1, i);
    }
  }

  lemma SamePart(a: seq<Cell>, b: seq<Cell>, from: nat, to: nat, lo: nat, hi: nat)
    requires |a| == |b| && from <= lo <= hi <= to <= |a| && a[from..to] == b[from..to]
    ensures a[lo..hi] == b[lo..hi]
  {
    forall k | lo <= k < hi
      ensures a[k] == b[k]
    {
      assert a[k] == a[from..to][k - from] && b[k] == b[from..to][k - from];
    }
  }

  /** `after` is `before` with `row` written at `start`. */
  predicate Rewritten(before: seq<Cell>, after: seq<Cell>, start: nat, row: Row) {
    && |before| == |after| && start + |row| <= |after|
    && after[0..start] == before[0..start] && after[start..start + |row|] == row
    && after[start + |row|..|after|] == before[start + |row|..|after|]
  }

  lemma OtherSlotKept(before: seq<Cell>, after: seq<Cell>, width: nat, n: nat, i: nat, j: nat, row: Row)
    requires i < n && j < n && i != j && |before| == |after| == n * width && |row| == width
    requires Rewritten(before, after, i * width, row)
    requires j * width + width <= |after|
    ensures SlotAt(after, width, j) == SlotAt(before, width, j)
  {
    var lo := j * width;
    if j < i {
      SlotsApart(j, i, width);
      SamePart(after, before, 0, i * width, lo, lo + width);
    } else {
      SlotsApart(i, j, width);
      SamePart(after, before, i * width + width, |after|, lo, lo + width);
    }
  }

  /** Cells rewritten inside one slot change that slot only. */
  lemma SlotRewritten(before: seq<Cell>, after: seq<Cell>, width: nat, n: nat, i: nat, row: Row)
    requires i < n && |before| == |after| == n * width && |row| == width
    requires Rewritten(before, after, i * width, row)
    ensures Slots(after, width, n) == Slots(before, width, n)[i := row]
  {
    var s, t := Slots(before, width, n), Slots(after, width, n);
    forall j | 0 <= j < n
      ensures t[j] == if j == i then row else s[j]
    {
      SlotsHold(before, width, n, j);
      SlotsHold(after, width, n, j);
      if j != i {
        OtherSlotKept(before, after, width, n, i, j, row);
      }
    }
  }

  lemma QueueFull(slots: seq<Row>, tail: nat, head: nat)
    requires tail < |slots| && head < |slots| && |slots| >= 2
    ensures After(head, |slots|) == tail <==> |Rows(slots, tail, head)| == |slots| - 1
  {
    RowsFull(tail, head, |slots|);
  }

  /** Moving the first row of the ring to the end of those taken keeps the whole. */
  lemma TakeOne(taken: seq<Row>, slots: seq<Row>, tail: nat, head: nat)
    requires tail < |slots| && head < |slots| && tail != head
    ensures taken + Rows(slots, tail, head) == (taken + [slots[tail]]) + Rows(slots, After(tail, |slots|), head)
    ensures Distance(After(tail, |slots|), head, |slots|) < Distance(tail, head, |slots|)
  {
    RowsTake(slots, tail, head);
    var rest := Rows(slots, After(tail, |slots|), head);
    assert taken + ([slots[tail]] + rest) == (taken + [slots[tail]]) + rest;
  }

  /** The text of some rows, each on its line. */
  function RowsText(rows: seq<Row>, printer: Printer): string {
    LinesTo(RowLines(rows, printer), |rows|)
  }

  lemma {:induction false} LinesToPrefix(a: seq<string>, b: seq<string>, n: nat)
    requires n <= |a| && n <= |b| && a[..n] == b[..n]
    ensures LinesTo(a, n) == LinesTo(b, n)
  {
    if n > 0 {
      assert a[..n - 1] == a[..n][..n - 1] == b[..n][..n - 1] == b[..n - 1];
      assert a[n - 1] == a[..n][n - 1] == b[..n][n - 1] == b[n - 1];
      LinesToPrefix(a, b, n - 1);
    }
  }

  lemma RowsTextPush(rows: seq<Row>, row: Row, printer: Printer)
    ensures RowsText(rows + [row], printer) == RowsText(rows, printer) + Line(row, printer) + "\n"
  {
    var before, after := RowLines(rows, printer), RowLines(rows + [row], printer);
    assert after[..|rows|] == before[..|rows|];
    LinesToPrefix(after, before, |rows|);
  }

  /** The pre-fill of `beginRow`: columns the caller leaves alone read back as unset. */
  method Prefill(cells: array<Cell>, start: nat, width: nat)
    requires start + width <= cells.Length
    modifies cells
    ensures Rewritten(old(cells[..]), cells[..], start, UnsetRow(width))
  {
    for i := start to start + width
      invariant forall k :: start <= k < i ==> cells[k] == Unset
      invariant forall k :: 0 <= k < cells.Length && (k < start || i <= k) ==> cells[k] == old(cells[k])
    {
      cells[i] := Unset;
    }
  }

  class Logger {
    const printer: Printer
    var width: nat
    var capacity: nat
    var ring: array<Cell>
    var head: nat
    var tail: nat
    var pendingHead: nat
    var running: bool
    var dropped: nat
    var written: nat
    var file: string
    // the header line and the rows the file holds after it
    ghost var header: string
    ghost var inFile: seq<Row>
    // begin calls that saw the logger running, rows given up by beginning another, rows committed,
    // and whether a begun row is open
    ghost var begun: nat
    ghost var abandoned: nat
    ghost var committed: seq<Row>
    ghost var filling: bool

    ghost predicate Valid()
      reads this, ring
    {
      Shaped() && FileOk() && Counted() && inFile + Queue() == committed
    }

    ghost predicate Shaped()
      reads `capacity, `width, `ring, `head, `tail, `pendingHead
    {
      && capacity >= 2 && width >= 1 && ring.Length == capacity * width
      && head < capacity && tail < capacity && pendingHead < capacity
    }

    ghost predicate FileOk()
      reads `file, `header, `inFile, `written
    {
      file == header + "\n" + RowsText(inFile, printer) && |inFile| == written
    }

    ghost predicate Counted()
      requires Shaped()
      reads `capacity, `width, `ring, `head, `tail, `pendingHead, `begun, `abandoned, `committed, `dropped, `filling
    {
      && begun == |committed| + dropped + abandoned + (if filling then 1 else 0)
      && (filling ==> pendingHead == head && After(head, capacity) != tail)
    }

    /** The ring as rows. */
    ghost function RingRows(): (slots: seq<Row>)
      requires Shaped()
      reads this, ring
      ensures |slots| == capacity
    {
      Slots(ring[..], width, capacity)
    }

    /** The rows committed and not yet drained. */
    ghost function Queue(): (rows: seq<Row>)
      requires Shaped()
      reads this, ring
    {
      Rows(RingRows(), tail, head)
    }

    /** `open` once the list of columns has been accepted. */
    constructor (columns: seq<string>, bufferRows: nat, printer: Printer)
      requires columns != []
      ensures Valid() && fresh(ring) && this.printer == printer
      ensures width == |columns| && capacity == Capacity(bufferRows) && running && !filling
      ensures Queue() == [] && inFile == [] && dropped == written == begun == abandoned == 0
      ensures file == FileText(columns, [], printer)
    {
      this.printer := printer;
      width := |columns|;
      capacity := Capacity(bufferRows);
      ring := new Cell[Capacity(bufferRows) * |columns|](_ => Unset);
      head, tail, pendingHead, dropped, written := 0, 0, 0, 0, 0;
      running := true;
      file := JoinTo(columns, |columns|) + "\n";
      header := JoinTo(columns, |columns|);
      inFile, begun, abandoned, committed, filling := [], 0, 0, [], false;
      new;
      FileIsFileText(columns, [], printer);
      assert file == header + "\n" + RowsText([], printer);
    }

    /** `beginRow`: where the row starts in the ring, or nothing when closed or when the ring is full. */
    method BeginRow() returns (row: Option<nat>)
      requires Valid()
      modifies ring, `pendingHead, `dropped, `begun, `abandoned, `filling
      ensures Valid() && begun == old(begun) + (if running then 1 else 0)
      ensures row.Some? <==> running && |old(Queue())| != capacity - 1
      ensures dropped == old(dropped) + (if running && |old(Queue())| == capacity - 1 then 1 else 0)
      ensures filling <==> row.Some? || (!running && old(filling))
      ensures abandoned == old(abandoned) + (if running && old(filling) then 1 else 0)
      ensures row.Some? ==> row.value == head * width && pendingHead == head
      ensures RingRows() == if row.Some? then old(RingRows())[head := UnsetRow(width)] else old(RingRows())
      ensures Queue() == old(Queue())
    {
      QueueFull(RingRows(), tail, head);
      if !running {
        return None;
      }
      CountBegin();
      var next := Advance(head, capacity);
      if next == tail {
        dropped := dropped + 1;
        return None;
      }
      pendingHead := head;
      filling := true;
      row := Some(head * width);
      ClearPending();
    }

    /** A row still open is given up. */
    ghost method CountBegin()
      modifies `begun, `abandoned, `filling
      ensures begun == old(begun) + 1 && !filling
      ensures abandoned == old(abandoned) + (if old(filling) then 1 else 0)
    {
      begun := begun + 1;
      abandoned := abandoned + (if filling then 1 else 0);
      filling := false;
    }

    /** Pre-fills the slot at the head, which no reader reads. */
    method ClearPending()
      requires Shaped() && pendingHead == head
      modifies ring
      ensures RingRows() == old(RingRows())[head := UnsetRow(width)]
      ensures Queue() == old(Queue())
    {
      SlotInside(head, width, capacity);
      Prefill(ring, head * width, width);
      SlotRewritten(old(ring[..]), ring[..], width, capacity, head, UnsetRow(width));
      RowsElsewhere(old(RingRows()), tail, head, UnsetRow(width));
    }

    /** The caller's `row[column] = value`. */
    method SetColumn(row: nat, column: nat, value: Cell)
      requires Valid() && filling && row == pendingHead * width && column < width
      modifies ring
      ensures Valid() && Queue() == old(Queue())
      ensures RingRows() == old(RingRows())[head := old(RingRows())[head][column := value]]
    {
      SlotsHold(ring[..], width, capacity, head);
      ghost var changed := RingRows()[head][column := value];
      ring[row + column] := value;
      SlotRewritten(old(ring[..]), ring[..], width, capacity, head, changed);
      RowsElsewhere(old(RingRows()), tail, head, changed);
    }

    /** `commitRow`. */
    method CommitRow()
      requires Valid() && filling
      modifies `head, `committed, `filling
      ensures Valid() && !filling && committed == old(committed) + [RingRows()[pendingHead]]
      ensures Queue() == old(Queue()) + [RingRows()[pendingHead]]
    {
      RowsPut(RingRows(), tail, head);
      committed := committed + [RingRows()[pendingHead]];
      assert inFile + (Queue() + [RingRows()[pendingHead]]) == inFile + Queue() + [RingRows()[pendingHead]];
      head := Advance(pendingHead, capacity);
      filling := false;
    }

    /** The loop of `drain`: formats every row up to the head, publishing the tail row by row. */
    method FormatReady() returns (outBuffer: string, drained: nat)
      requires Shaped()
      modifies `tail
      ensures Shaped() && tail == head
      ensures outBuffer == RowsText(old(Queue()), printer) && drained == |old(Queue())|
    {
      drained := 0;
      outBuffer := "";
      ghost var slots := RingRows();
      ghost var taken: seq<Row> := [];
      while tail != head
        invariant tail < capacity
        invariant taken + Rows(slots, tail, head) == old(Queue()) && drained == |taken|
        invariant outBuffer == RowsText(taken, printer)
        decreases Distance(tail, head, capacity)
      {
        SlotsHold(ring[..], width, capacity, tail);
        ghost var row := slots[tail];
        TakeOne(taken, slots, tail, head);
        RowsTextPush(taken, row, printer);
        outBuffer := FormatRow(SlotAt(ring[..], width, tail), printer, outBuffer);
        taken := taken + [row];
        tail := Advance(tail, capacity);
        drained := drained + 1;
      }
      assert taken + [] == taken;
    }

    /** `drain`: formats what is ready, then writes it all at once. */
    method Drain() returns (drained: nat)
      requires Valid()
      modifies `tail, `file, `written, `inFile
      ensures Valid() && Queue() == [] && drained == |old(Queue())|
      ensures inFile == old(inFile) + old(Queue()) && written == old(written) + drained
    {
      var outBuffer;
      ghost var queue := Queue();
      assert After(head, capacity) != head;
      outBuffer, drained := FormatReady();
      assert Queue() == [];
      FileGrows(header, inFile, queue, printer);
      if outBuffer != "" {
        file := file + outBuffer;
        written := written + drained;
        inFile := inFile + queue;
        assert inFile + [] == inFile;
      } else {
        NothingTaken(queue, printer);
      }
    }

    /** `close`, with the writer's last drain, which the join waits for. */
    method Close()
      requires Valid()
      modifies `running, `tail, `file, `written, `inFile
      ensures Valid() && !running
      ensures old(running) ==> Queue() == [] && inFile == committed
      ensures old(running) && !filling ==> written + dropped + abandoned == begun
      ensures !old(running) ==> file == old(file) && written == old(written)
    {
      if !running {
        return;
      }
      running := false;
      var _ := Drain();
      assert inFile + [] == inFile;
    }
  }

  /** What the disk makes of the path: the calls of `open` in order, and the one that fails. */
  datatype Disk = Works | NoDirectory | NoFile | NoHeader

  datatype Failure = EmptyColumns | Directory | File | Header

  datatype Opening = Opened(logger: Logger) | Failed(reason: Failure)

  /** `open`: an empty list of columns is refused first, then whatever the disk refuses. */
  method Open(columns: seq<string>, bufferRows: nat, printer: Printer, disk: Disk) returns (result: Opening)
    ensures result.Opened? <==> columns != [] && disk.Works?
    ensures result.Failed? ==>
              && (result.reason.EmptyColumns? <==> columns == [])
              && (result.reason.Directory? ==> disk.NoDirectory?)
              && (result.reason.File? ==> disk.NoFile?)
              && (result.reason.Header? ==> disk.NoHeader?)
    ensures result.Opened? ==>
              var l := result.logger;
              && fresh(l) && fresh(l.ring) && l.Valid() && l.running && !l.filling && l.Queue() == []
              && l.width == |columns| && l.capacity == Capacity(bufferRows) && l.file == FileText(columns, [], printer)
  {
    if columns == [] {
      return Failed(EmptyColumns);
    }
    match disk {
      case NoDirectory => return Failed(Directory);
      case NoFile => return Failed(File);
      case NoHeader => return Failed(Header);
      case Works =>
        var l := new Logger(columns, bufferRows, printer);
        result := Opening.Opened(l);
    }
  }

  lemma {:induction false} LinesToConcat(a: seq<string>, b: seq<string>, n: nat)
    requires n <= |b|
    ensures LinesTo(a + b, |a| + n) == LinesTo(a, |a|) + LinesTo(b, n)
    decreases n
  {
    if n == 0 {
      assert (a + b)[..|a|] == a == a[..|a|];
      LinesToPrefix(a + b, a, |a|);
      assert LinesTo(a, |a|) + "" == LinesTo(a, |a|);
    } else {
      LinesToConcat(a, b, n - 1);
      assert (a + b)[|a| + n - 1] == b[n - 1];
      assert LinesTo(a, |a|) + LinesTo(b, n - 1) + b[n - 1] + "\n" == LinesTo(a, |a|) + LinesTo(b, n);
    }
  }

  /** One write of the drained rows continues the file. */
  lemma FileGrows(header: string, rows: seq<Row>, more: seq<Row>, printer: Printer)
    ensures header + "\n" + RowsText(rows, printer) + RowsText(more, printer)
        == header + "\n" + RowsText(rows + more, printer)
  {
    LinesToConcat(RowLines(rows, printer), RowLines(more, printer), |more|);
    assert RowLines(rows, printer) + RowLines(more, printer) == RowLines(rows + more, printer);
  }

  /** Even a row of unset cells prints its newline, so an empty buffer means no row was taken. */
  lemma NothingTaken(rows: seq<Row>, printer: Printer)
    requires RowsText(rows, printer) == ""
    ensures rows == []
  {
  }

  lemma OneLine(line: string)
    ensures LinesTo([line], 1) == line + "\n"
  {
    assert "" + line == line;
  }

  /** What the object's file holds is the text the reader is proved against. */
  lemma FileIsFileText(columns: seq<string>, rows: seq<Row>, printer: Printer)
    ensures JoinTo(columns, |columns|) + "\n" + RowsText(rows, printer) == FileText(columns, rows, printer)
  {
    var line := JoinTo(columns, |columns|);
    OneLine(line);
    LinesToConcat([line], RowLines(rows, printer), |rows|);
  }
}
