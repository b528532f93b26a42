/**
 The lock-free single-producer single-consumer log ring as a machine whose steps are the
 accesses each thread makes to what it shares: the producer's begin and commit, the writer
 thread's loop, and close. The rows in file, buffer and ring are always the committed rows.
 */
module LogRing {

  datatype Cell = Unset | Value(v: real)

  type Row = seq<Cell>

  function UnsetRow(width: nat): Row {
    seq(width, _ => Unset)
  }

  /** Capacity is at least this; one slot stays empty so that equal indices mean an empty ring. */
  const MINIMUM_ROWS: nat := 16

  function Capacity(bufferRows: nat): (c: nat)
    ensures c >= 2 && c >= bufferRows
  {
    if bufferRows < MINIMUM_ROWS then MINIMUM_ROWS else bufferRows
  }

  function After(i: nat, capacity: nat): (n: nat)
    requires i < capacity
    ensures n < capacity
  {
    if i + 1 == capacity then 0 else i + 1
  }

  lemma AfterIsModulo(i: nat, capacity: nat)
    requires i < capacity
    ensures After(i, capacity) == (i + 1) % capacity
  {
    if i + 1 == capacity {
    } else {
    }
  }

  /** The index after `i`, as both threads compute it. */
  method Advance(i: nat, capacity: nat) returns (n: nat)
    requires i < capacity
    ensures n == After(i, capacity)
  {
    AfterIsModulo(i, capacity);
    n := (i + 1) % capacity;
  }

  /** Rows from `from` up to, not including, `to`, going round. */
  function Distance(from: nat, to: nat, capacity: nat): (d: nat)
    requires from < capacity && to < capacity
    ensures d < capacity
    ensures d == 0 <==> from == to
  {
    if from <= to then to - from else to + capacity - from
  }

  function Rows(slots: seq<Row>, from: nat, to: nat): (rows: seq<Row>)
    requires from < |slots| && to < |slots|
    ensures |rows| == Distance(from, to, |slots|)
  {
    if from <= to then slots[from..to] else slots[from..] + slots[..to]
  }

  datatype ProducerPc = Outside | SawRunning | Claimed | Filling

  datatype WriterPc = Checking | Looking | Formatting | Advancing | Writing | Counting | Done

  datatype Log = Log(
    width: nat,
    slots: seq<Row>,
    head: nat,
    tail: nat,
    pending: nat,
    running: bool,
    dropped: nat,
    written: nat,
    producer: ProducerPc,
    writer: WriterPc,
    // the writer's locals: its copy of the tail, rows drained so far, whether this is the last drain
    cursor: nat,
    drained: nat,
    last: bool,
    buffer: seq<Row>,
    file: seq<Row>,
    // history: what the caller has put into the row it was handed, rows committed, how many of them at
    // the writer's last read of the head, begin calls that saw the logger running, and rows begun and
    // given up by beginning another
    filled: Row,
    committed: seq<Row>,
    looked: nat,
    begun: nat,
    abandoned: nat)

  function Opened(width: nat, bufferRows: nat): Log {
    Log(width, seq(Capacity(bufferRows), _ => UnsetRow(width)), 0, 0, 0, true, 0, 0,
        Outside, Checking, 0, 0, false, [], [], [], [], 0, 0, 0)
  }

  datatype Event = Begin | Set(column: nat, cell: Cell) | Commit | Write | Close

  // ---- producer ----

  predicate IndicesOk(s: Log) {
    s.head < |s.slots| && s.tail < |s.slots| && s.pending < |s.slots| && s.cursor < |s.slots| && |s.slots| >= 2
  }

  predicate Full(s: Log)
    requires IndicesOk(s)
  {
    After(s.head, |s.slots|) == s.tail
  }

  /**
   `beginRow`, in three steps: running, then head against tail, then the row pre-filled. Begun
   again without a commit, it hands out the same slot.
   */
  function BeginStep(s: Log): Log
    requires IndicesOk(s)
  {
    match s.producer
    case Outside => if s.running then s.(producer := SawRunning, begun := s.begun + 1) else s
    case SawRunning =>
      if Full(s) then s.(producer := Outside, dropped := s.dropped + 1)
      else s.(producer := Claimed, pending := s.head)
    case Claimed =>
      s.(producer := Filling, filled := UnsetRow(s.width), slots := s.slots[s.pending := UnsetRow(s.width)])
    case Filling =>
      if s.running then s.(producer := SawRunning, begun := s.begun + 1, abandoned := s.abandoned + 1) else s
  }

  function SetStep(s: Log, column: nat, cell: Cell): Log
    requires IndicesOk(s)
  {
    var t := s.(filled := Told(s.filled, column, cell));
    if column < |s.slots[s.pending]|
    then t.(slots := s.slots[s.pending := s.slots[s.pending][column := cell]]) else t
  }

  /** A row after the caller has set one of its columns. */
  function Told(row: Row, column: nat, cell: Cell): Row {
    if column < |row| then row[column := cell] else row
  }

  function CommitStep(s: Log): Log
    requires IndicesOk(s)
  {
    s.(head := After(s.pending, |s.slots|), producer := Outside, committed := s.committed + [s.filled])
  }

  // ---- writer ----

  function WriteStep(s: Log): Log
    requires IndicesOk(s)
  {
    match s.writer
    case Checking => s.(writer := Looking, last := !s.running, cursor := s.tail, drained := 0)
    case Looking =>
      var next := if s.cursor != s.head then Formatting
                  else if s.buffer != [] then Writing
                  else if s.last then Done else Checking;
      s.(writer := next, looked := |s.committed|)
    case Formatting =>
      s.(writer := Advancing, buffer := s.buffer + [s.slots[s.cursor]], cursor := After(s.cursor, |s.slots|))
    case Advancing => s.(writer := Looking, tail := s.cursor, drained := s.drained + 1)
    case Writing => s.(writer := Counting, file := s.file + s.buffer, buffer := [])
    case Counting => s.(writer := if s.last then Done else Checking, written := s.written + s.drained)
    case Done => s
  }

  // ---- steps and runs ----

  predicate Enabled(s: Log, e: Event) {
    match e
    case Begin => true
    case Set(_, _) => s.producer.Filling?
    case Commit => s.producer.Filling?
    case Write => !s.writer.Done?
    case Close => s.running
  }

  function Next(s: Log, e: Event): (t: Log)
    requires IndicesOk(s)
    ensures IndicesOk(t)
  {
    match e
    case Begin => BeginStep(s)
    case Set(column, cell) => SetStep(s, column, cell)
    case Commit => CommitStep(s)
    case Write => WriteStep(s)
    case Close => s.(running := false)
  }

  // ---- invariant ----

  function Queue(s: Log): seq<Row>
    requires IndicesOk(s)
  {
    Rows(s.slots, s.cursor, s.head)
  }

  /** Begun, but neither dropped nor committed yet. */
  function Open(s: Log): nat {
    if s.producer.Outside? then 0 else 1
  }

  predicate Shape(s: Log) {
    && IndicesOk(s)
    && (s.producer.Claimed? || s.producer.Filling? ==> s.pending == s.head && !Full(s))
    && (s.writer.Advancing? ==> s.tail != s.head && s.cursor == After(s.tail, |s.slots|))
    && (!s.writer.Advancing? && !s.writer.Checking? ==> s.cursor == s.tail)
    && (s.writer.Checking? ==> s.cursor == s.tail)
    && (s.writer.Formatting? ==> s.cursor != s.head)
    && (s.producer.Filling? ==> s.slots[s.pending] == s.filled)
  }

  /** The ring holds what a queue would. */
  predicate Refines(s: Log)
    requires IndicesOk(s)
  {
    s.file + s.buffer + Queue(s) == s.committed
  }

  predicate Counted(s: Log) {
    && s.begun == |s.committed| + s.dropped + s.abandoned + Open(s)
    && |s.file| == s.written + (if s.writer.Counting? then s.drained else 0)
    && (s.writer.Looking? || s.writer.Formatting? || s.writer.Writing? ==> |s.buffer| == s.drained)
    && (s.writer.Advancing? ==> |s.buffer| == s.drained + 1)
    && (s.writer.Checking? || s.writer.Counting? || s.writer.Done? ==> s.buffer == [])
    && (s.last || s.writer.Done? ==> !s.running && s.last)
  }

  /** The writer has seen the ring empty and has yet to look again. */
  predicate PastLook(s: Log) {
    s.writer.Writing? || s.writer.Counting? || s.writer.Done?
  }

  /** What it took is what had been committed; after the last look only a row open by then can still be. */
  predicate Looked(s: Log) {
    && s.looked <= |s.committed|
    && (PastLook(s) ==> s.file + s.buffer == s.committed[..s.looked])
    && (PastLook(s) && s.last ==> |s.committed| + Open(s) <= s.looked + 1)
  }

  predicate Inv(s: Log) {
    Shape(s) && Refines(s) && Counted(s) && Looked(s)
  }

  lemma OpenedInv(width: nat, bufferRows: nat)
    ensures Inv(Opened(width, bufferRows))
  {
  }

  /** Taking the first row moves the start on by one. */
  lemma RowsTake(slots: seq<Row>, from: nat, to: nat)
    requires from < |slots| && to < |slots| && from != to
    ensures Rows(slots, from, to) == [slots[from]] + Rows(slots, After(from, |slots|), to)
  {
    if from < to {
      assert slots[from..to] == [slots[from]] + slots[from + 1..to];
    } else if from + 1 < |slots| {
      assert slots[from..] == [slots[from]] + slots[from + 1..];
    } else {
      assert slots[from..] == [slots[from]];
    }
  }

  /** Publishing the slot at the end appends it, as long as the ring was not full. */
  lemma RowsPut(slots: seq<Row>, from: nat, to: nat)
    requires from < |slots| && to < |slots| && After(to, |slots|) != from
    ensures Rows(slots, from, After(to, |slots|)) == Rows(slots, from, to) + [slots[to]]
  {
    if to + 1 < |slots| {
      if from <= to {
        assert slots[from..to + 1] == slots[from..to] + [slots[to]];
      } else {
        assert slots[..to + 1] == slots[..to] + [slots[to]];
      }
    } else {
      assert slots[from..to] + [slots[to]] == slots[from..] + slots[..0];
    }
  }

  /** Writing the slot at the end changes no row in the range. */
  lemma RowsElsewhere(slots: seq<Row>, from: nat, to: nat, row: Row)
    requires from < |slots| && to < |slots|
    ensures Rows(slots[to := row], from, to) == Rows(slots, from, to)
  {
  }

  /** The last row before full: the start may move on, but never onto the end. */
  lemma RowsFull(from: nat, to: nat, capacity: nat)
    requires from < capacity && to < capacity && capacity >= 2
    ensures After(to, capacity) == from <==> Distance(from, to, capacity) == capacity - 1
    ensures from != to && After(to, capacity) != from ==> After(to, capacity) != After(from, capacity)
  {
  }

  lemma AbandonKeeps(s: Log)
    requires Inv(s) && s.producer.Filling?
    ensures Inv(BeginStep(s))
  {
    if s.running {
    } else {
    }
  }

  lemma ClaimKeeps(s: Log)
    requires Inv(s) && s.producer.Claimed?
    ensures Inv(BeginStep(s))
  {
    RowsElsewhere(s.slots, s.cursor, s.head, UnsetRow(s.width));
  }

  lemma BeginKeeps(s: Log)
    requires Inv(s)
    ensures Inv(BeginStep(s))
  {
    match s.producer {
      case Outside => if s.running {} else {}
      case SawRunning => if Full(s) {} else {}
      case Claimed => ClaimKeeps(s);
      case Filling => AbandonKeeps(s);
    }
  }

  lemma SetKeeps(s: Log, column: nat, cell: Cell)
    requires Inv(s) && s.producer.Filling?
    ensures Inv(SetStep(s, column, cell))
  {
    if column < |s.slots[s.pending]| {
      RowsElsewhere(s.slots, s.cursor, s.head, s.slots[s.pending][column := cell]);
    }
  }

  lemma CommitKeeps(s: Log)
    requires Inv(s) && s.producer.Filling?
    ensures Inv(CommitStep(s))
  {
    RowsFull(s.tail, s.head, |s.slots|);
    RowsPut(s.slots, s.cursor, s.head);
  }

  lemma FormatKeeps(s: Log)
    requires Inv(s) && s.writer.Formatting?
    ensures Inv(WriteStep(s))
  {
    RowsTake(s.slots, s.cursor, s.head);
    assert s.file + (s.buffer + [s.slots[s.cursor]]) + Queue(WriteStep(s)) == s.file + s.buffer + Queue(s);
  }

  lemma AdvanceKeeps(s: Log)
    requires Inv(s) && s.writer.Advancing?
    ensures Inv(WriteStep(s))
  {
    RowsFull(s.tail, s.head, |s.slots|);
  }

  lemma FlushKeeps(s: Log)
    requires Inv(s) && s.writer.Writing?
    ensures Inv(WriteStep(s))
  {
    assert s.file + s.buffer + [] == s.file + s.buffer;
  }

  lemma WriteKeeps(s: Log)
    requires Inv(s)
    ensures Inv(WriteStep(s))
  {
    match s.writer {
      case Checking =>
      case Looking => if s.cursor != s.head {} else if s.buffer != [] {} else {}
      case Formatting => FormatKeeps(s);
      case Advancing => AdvanceKeeps(s);
      case Writing => FlushKeeps(s);
      case Counting =>
      case Done =>
    }
  }

  lemma NextKeeps(s: Log, e: Event)
    requires Inv(s) && Enabled(s, e)
    ensures Inv(Next(s, e))
  {
    match e {
      case Begin => BeginKeeps(s);
      case Set(column, cell) => SetKeeps(s, column, cell);
      case Commit => CommitKeeps(s);
      case Write => WriteKeeps(s);
      case Close =>
    }
  }

  // ---- runs ----

  function Run(s: Log, events: seq<Event>): (t: Log)
    requires IndicesOk(s)
    ensures IndicesOk(t)
    decreases |events|
  {
    if events == [] then s else Run(Next(s, events[0]), events[1..])
  }

  predicate Possible(s: Log, events: seq<Event>)
    requires IndicesOk(s)
    decreases |events|
  {
    events == [] || (Enabled(s, events[0]) && Possible(Next(s, events[0]), events[1..]))
  }

  lemma {:induction false} InvHolds(s: Log, events: seq<Event>)
    requires Inv(s) && Possible(s, events)
    ensures Inv(Run(s, events))
    decreases |events|
  {
    if events != [] {
      NextKeeps(s, events[0]);
      InvHolds(Next(s, events[0]), events[1..]);
    }
  }

  lemma {:induction false} RunConcat(s: Log, xs: seq<Event>, ys: seq<Event>)
    requires IndicesOk(s)
    ensures Run(s, xs + ys) == Run(Run(s, xs), ys)
    ensures Possible(s, xs + ys) <==> Possible(s, xs) && Possible(Run(s, xs), ys)
    decreases |xs|
  {
    if xs == [] {
      assert xs + ys == ys;
    } else {
      assert (xs + ys)[1..] == xs[1..] + ys;
      RunConcat(Next(s, xs[0]), xs[1..], ys);
    }
  }

  /**
   A row is handed out unset, and only for a begin that went through the checks: beginning again
   while the logger runs starts over, and later leaves the open row to be finished.
   */
  lemma RowsAreHandedOutUnset(s: Log)
    requires Inv(s)
    ensures var t := Next(s, Begin);
            t.producer.Filling? ==>
              if s.producer.Filling? then !s.running && t == s
              else s.producer.Claimed? && t.filled == t.slots[t.pending] == UnsetRow(s.width)
  {
    if s.producer.Filling? && s.running {
    }
  }

  /** From the opening on, in every interleaving: what is in file, buffer and ring is what was committed, in order. */
  lemma RingRefinesQueue(width: nat, bufferRows: nat, events: seq<Event>)
    requires Possible(Opened(width, bufferRows), events)
    ensures var s := Run(Opened(width, bufferRows), events);
            && s.file + s.buffer + Queue(s) == s.committed
            && s.begun == s.dropped + s.abandoned + Open(s) + |s.file| + |s.buffer| + |Queue(s)|
  {
    OpenedInv(width, bufferRows);
    InvHolds(Opened(width, bufferRows), events);
  }

  /** The producer's writes miss every row the writer may still read, at its copy of the tail or the published one. */
  lemma ProducerWritesElsewhere(s: Log, e: Event)
    requires Inv(s) && Enabled(s, e) && !e.Write? && !e.Commit?
    ensures Next(s, e).head == s.head
    ensures Rows(Next(s, e).slots, s.tail, s.head) == Rows(s.slots, s.tail, s.head)
    ensures Rows(Next(s, e).slots, s.cursor, s.head) == Rows(s.slots, s.cursor, s.head)
  {
    match e {
      case Begin =>
        if s.producer.Claimed? {
          RowsElsewhere(s.slots, s.tail, s.head, UnsetRow(s.width));
          RowsElsewhere(s.slots, s.cursor, s.head, UnsetRow(s.width));
        }
      case Set(column, cell) =>
        if column < |s.slots[s.pending]| {
          RowsElsewhere(s.slots, s.tail, s.head, s.slots[s.pending][column := cell]);
          RowsElsewhere(s.slots, s.cursor, s.head, s.slots[s.pending][column := cell]);
        }
      case Close =>
    }
  }

  /** A sample is dropped exactly when capacity minus one rows are outstanding as the tail is read. */
  lemma DropsExactlyWhenFull(s: Log)
    requires Inv(s) && s.producer.SawRunning?
    ensures Next(s, Begin).dropped == s.dropped + 1 <==> Distance(s.tail, s.head, |s.slots|) == |s.slots| - 1
    ensures Next(s, Begin).dropped == s.dropped <==> Next(s, Begin).producer.Claimed?
  {
    RowsFull(s.tail, s.head, |s.slots|);
  }

  // ---- shutdown ----

  /** Work left for the writer once the logger is closed. */
  function Rank(w: WriterPc, last: bool): nat {
    match w
    case Done => 0
    case Counting => if last then 1 else 7
    case Writing => if last then 2 else 8
    case Formatting => if last then 3 else 9
    case Looking => if last then 4 else 10
    case Advancing => if last then 5 else 11
    case Checking => 6
  }

  function Work(s: Log): nat
    requires IndicesOk(s)
  {
    4 * (|Queue(s)| + Open(s)) + Rank(s.writer, s.last)
  }

  function CountWrites(events: seq<Event>): nat
    decreases |events|
  {
    if events == [] then 0 else (if events[0].Write? then 1 else 0) + CountWrites(events[1..])
  }

  lemma WriteShrinks(s: Log)
    requires Inv(s) && !s.running && !s.writer.Done?
    ensures Work(WriteStep(s)) < Work(s)
  {
    match s.writer {
      case Checking =>
      case Looking =>
      case Formatting => RowsTake(s.slots, s.cursor, s.head);
      case Advancing =>
      case Writing =>
      case Counting =>
    }
  }

  lemma BeginShrinks(s: Log)
    requires Inv(s) && !s.running
    ensures Work(BeginStep(s)) <= Work(s) && BeginStep(s).begun == s.begun && BeginStep(s).abandoned == s.abandoned
  {
    match s.producer {
      case Outside =>
      case SawRunning => if Full(s) {} else {}
      case Claimed =>
      case Filling =>
    }
  }

  lemma WorkShrinks(s: Log, e: Event)
    requires Inv(s) && Enabled(s, e) && !s.running
    ensures !Next(s, e).running
    ensures e.Write? ==> Work(Next(s, e)) < Work(s)
    ensures !e.Write? ==> Work(Next(s, e)) <= Work(s)
  {
    match e {
      case Write => WriteShrinks(s);
      case Commit =>
        RowsFull(s.tail, s.head, |s.slots|);
        RowsPut(s.slots, s.cursor, s.head);
      case Begin => BeginShrinks(s);
      case Set(_, _) =>
    }
  }

  /** After close the writer takes no more than Work(s) further steps, whatever the producer does. */
  lemma {:induction false} ShutdownTerminates(s: Log, events: seq<Event>)
    requires Inv(s) && !s.running && Possible(s, events)
    ensures CountWrites(events) + Work(Run(s, events)) <= Work(s)
    decreases |events|
  {
    if events != [] {
      WorkShrinks(s, events[0]);
      NextKeeps(s, events[0]);
      ShutdownTerminates(Next(s, events[0]), events[1..]);
    }
  }

  /** No begun row is open, and a writer past its last look has left nothing behind. */
  predicate Quiet(s: Log)
    requires IndicesOk(s)
  {
    && !s.running
    && s.producer.Outside?
    && (s.last && PastLook(s) ==> s.cursor == s.head)
  }

  lemma {:induction false} QuietStays(s: Log, events: seq<Event>)
    requires Inv(s) && Quiet(s) && Possible(s, events)
    ensures Quiet(Run(s, events)) && Run(s, events).committed == s.committed
    ensures Run(s, events).begun == s.begun && Run(s, events).abandoned == s.abandoned
    decreases |events|
  {
    if events != [] {
      NextKeeps(s, events[0]);
      match events[0] {
        case Begin =>
        case Write => match s.writer { case Looking => case Formatting => case _ => }
      }
      QuietStays(Next(s, events[0]), events[1..]);
    }
  }

  /**
   Closed with every begun row committed: once the writer has left, the file holds exactly the
   committed rows, and written, dropped and given up are the begin calls that saw it running.
   */
  lemma CloseConserves(s: Log, events: seq<Event>)
    requires Inv(s) && s.running && s.producer.Outside?
    requires Possible(Next(s, Close), events) && Run(Next(s, Close), events).writer.Done?
    ensures var t := Run(Next(s, Close), events);
            t.file == t.committed == s.committed && t.written + t.dropped + t.abandoned == t.begun == s.begun
  {
    var s1 := Next(s, Close);
    NextKeeps(s, Close);
    QuietStays(s1, events);
    InvHolds(s1, events);
    var t := Run(s1, events);
    assert Queue(t) == [] && t.buffer == [];
  }

  /** Left alone after close, the writer leaves with the ring empty. */
  lemma {:induction false} WriterLeaves(s: Log) returns (events: seq<Event>)
    requires Inv(s) && !s.running
    requires s.last && PastLook(s) ==> s.cursor == s.head
    ensures Possible(s, events)
    ensures var t := Run(s, events);
            && t.writer.Done? && t.cursor == t.head == t.tail
            && t.producer == s.producer && t.begun == s.begun && t.dropped == s.dropped
            && t.abandoned == s.abandoned
            && |t.slots| == |s.slots|
    decreases Work(s)
  {
    if s.writer.Done? {
      events := [];
    } else {
      WorkShrinks(s, Write);
      NextKeeps(s, Write);
      match s.writer { case Looking => case Formatting => case _ => }
      var rest := WriterLeaves(Next(s, Write));
      events := [Write] + rest;
      assert events[1..] == rest;
    }
  }

  /** With the ring empty, the producer can finish the row it has begun. */
  lemma {:induction false} FinishCommits(s: Log) returns (events: seq<Event>)
    requires Inv(s) && s.head == s.tail && !s.producer.Outside?
    ensures Possible(s, events)
    ensures var t := Run(s, events);
            && t.producer.Outside? && t.writer == s.writer
            && t.begun == s.begun && t.dropped == s.dropped && t.written == s.written
            && t.abandoned == s.abandoned
    decreases if s.producer.SawRunning? then 2 else if s.producer.Claimed? then 1 else 0
  {
    if s.producer.Filling? {
      events := [Commit];
      assert events[1..] == [];
    } else {
      var s1 := Next(s, Begin);
      NextKeeps(s, Begin);
      assert s1.producer == if s.producer.SawRunning? then Claimed else Filling;
      var rest := FinishCommits(s1);
      events := [Begin] + rest;
      assert events[1..] == rest;
    }
  }

  /** Closed with a row begun and not committed: a run in which that row is neither written nor dropped. */
  lemma OpenRowMayBeLost(s: Log) returns (events: seq<Event>)
    requires Inv(s) && s.running && !s.producer.Outside?
    ensures Possible(Next(s, Close), events)
    ensures var t := Run(Next(s, Close), events);
            t.writer.Done? && t.producer.Outside? && t.written + t.dropped + t.abandoned + 1 == t.begun
  {
    var s1 := Next(s, Close);
    NextKeeps(s, Close);
    var leaving := WriterLeaves(s1);
    InvHolds(s1, leaving);
    var t := Run(s1, leaving);
    var finishing := FinishCommits(t);
    RunConcat(s1, leaving, finishing);
    events := leaving + finishing;
  }

  /** After the join, with no row open, every begin that saw the logger running is accounted for. */
  predicate Conserved(t: Log) {
    t.writer.Done? && t.producer.Outside? ==> t.written + t.dropped + t.abandoned == t.begun
  }

  ghost predicate AlwaysConserves(s: Log)
    requires IndicesOk(s)
  {
    forall events :: Possible(s, events) ==> Conserved(Run(s, events))
  }

  /** The exact condition: close loses nothing in any interleaving iff no row is open when it is called. */
  lemma ConservesExactlyWhenClosedOutside(s: Log)
    requires Inv(s) && s.running
    ensures AlwaysConserves(Next(s, Close)) <==> s.producer.Outside?
  {
    if s.producer.Outside? {
      forall events | Possible(Next(s, Close), events)
        ensures Conserved(Run(Next(s, Close), events))
      {
        if Run(Next(s, Close), events).writer.Done? {
          CloseConserves(s, events);
        }
      }
    } else {
      var events := OpenRowMayBeLost(s);
      assert !Conserved(Run(Next(s, Close), events));
    }
  }

  // ---- what survives ----

  /**
   Whatever the interleaving and wherever close fell, once the writer has left the file holds, in
   order, the rows committed by its last read of the head, and at most one row is missing: the one
   that was open at that read.
   */
  lemma FileIsWhatWasSeen(width: nat, bufferRows: nat, events: seq<Event>)
    requires Possible(Opened(width, bufferRows), events)
    requires Run(Opened(width, bufferRows), events).writer.Done?
    ensures var s := Run(Opened(width, bufferRows), events);
            && s.looked <= |s.committed| && s.file == s.committed[..s.looked]
            && |s.committed| + Open(s) <= s.looked + 1
  {
    OpenedInv(width, bufferRows);
    InvHolds(Opened(width, bufferRows), events);
  }

  /** From any opening: begin a row, close, and let the writer leave before the row is committed. */
  lemma FirstRowMayBeLost(width: nat, bufferRows: nat) returns (events: seq<Event>)
    ensures Possible(Opened(width, bufferRows), events)
    ensures var t := Run(Opened(width, bufferRows), events);
            t.writer.Done? && t.producer.Outside? && t.file == [] && |t.committed| == 1
  {
    var s := Opened(width, bufferRows);
    OpenedInv(width, bufferRows);
    NextKeeps(s, Begin);
    var rest := OpenRowMayBeLost(Next(s, Begin));
    events := [Begin] + ([Close] + rest);
    assert events[1..] == [Close] + rest && ([Close] + rest)[1..] == rest;
    InvHolds(s, events);
    BegunOnce(Next(Next(s, Begin), Close), rest);
  }

  /** After close no begin counts and no sample is dropped but one already past the check. */
  lemma {:induction false} BegunOnce(s: Log, events: seq<Event>)
    requires Inv(s) && !s.running && Possible(s, events)
    ensures Run(s, events).begun == s.begun && Run(s, events).abandoned == s.abandoned
    decreases |events|
  {
    if events != [] {
      NextKeeps(s, events[0]);
      if events[0].Begin? {
        BeginShrinks(s);
      }
      BegunOnce(Next(s, events[0]), events[1..]);
    }
  }
}
