/** The cost log: its columns, their names, and the recorder with its two blocks that may stay unset. */
module DiagnosticsCost {
  import opened LogRing
  import opened DiagnosticsColumns
  import DiagnosticsRecorder

  datatype Health = Health(valid: bool, merit: real, cost: real, dynamicsViolation: real, equalityViolation: real,
                           dualFeasibility: real, equalityLagrangian: real, inequalityLagrangian: real,
                           iterations: real, policyUpdated: bool)

  /** One evaluation of the cost: totals, values per term, the state and the reference. */
  datatype CostSample = CostSample(time: real, mode: real, advanceMs: real, runningTotal: real, terminalTotal: real,
                                   health: Health, state: seq<real>, reference: seq<real>,
                                   running: seq<real>, terminal: seq<real>)

  datatype HealthField = Merit | Cost | DynamicsViolation | EqualityViolation | DualFeasibility
                       | EqualityLagrangian | InequalityLagrangian | Iterations | PolicyUpdated

  datatype CostColumn =
    | CostTime | CostMode | AdvanceMs | RunningTotal | TerminalTotal
    | Solver(field: HealthField)
    | StateEntry(entry: nat)
    | ReferenceEntry(entry: nat)
    | RunningTerm(term: nat)
    | TerminalTerm(term: nat)

  const ENTRIES: nat := 12

  function HealthFieldAt(i: nat): HealthField {
    match i
    case 0 => Merit
    case 1 => Cost
    case 2 => DynamicsViolation
    case 3 => EqualityViolation
    case 4 => DualFeasibility
    case 5 => EqualityLagrangian
    case 6 => InequalityLagrangian
    case 7 => Iterations
    case _ => PolicyUpdated
  }

  function ColumnAt(i: nat, running: nat): CostColumn {
    if i == 0 then CostTime
    else if i == 1 then CostMode
    else if i == 2 then AdvanceMs
    else if i == 3 then RunningTotal
    else if i == 4 then TerminalTotal
    else if i < 14 then Solver(HealthFieldAt(i - 5))
    else if i < 26 then StateEntry(i - 14)
    else if i < 38 then ReferenceEntry(i - 26)
    else if i < 38 + running then RunningTerm(i - 38)
    else TerminalTerm(i - 38 - running)
  }

  // ---- names ----

  function HealthName(f: HealthField): string {
    match f
    case Merit => "solver_merit"
    case Cost => "solver_cost"
    case DynamicsViolation => "solver_dynamics_violation_sse"
    case EqualityViolation => "solver_equality_sse"
    case DualFeasibility => "solver_dual_feasibility_sse"
    case EqualityLagrangian => "solver_equality_lagrangian"
    case InequalityLagrangian => "solver_inequality_lagrangian"
    case Iterations => "solver_iterations"
    case PolicyUpdated => "policy_updated"
  }

  function BaseSuffix(axis: nat): string {
    match axis case 0 => "_x" case 1 => "_y" case 2 => "_z" case 3 => "_yaw" case 4 => "_pitch" case _ => "_roll"
  }

  /** Entries 0 to 5 are the normalised momentum, 6 to 11 the base pose. */
  function EntryName(prefix: string, i: nat): string {
    if i < 6 then prefix + "_hbar" + MomentumSuffix(i) else prefix + "_base" + BaseSuffix(i - 6)
  }

  function CostName(c: CostColumn, running: seq<string>, terminal: seq<string>): string {
    match c
    case CostTime => "t"
    case CostMode => "mode"
    case AdvanceMs => "advance_ms"
    case RunningTotal => "running_cost_total"
    case TerminalTotal => "terminal_cost_total"
    case Solver(f) => HealthName(f)
    case StateEntry(i) => EntryName("x", i)
    case ReferenceEntry(i) => EntryName("ref", i)
    case RunningTerm(i) => "run_" + NameAt(running, i)
    case TerminalTerm(i) => "term_" + NameAt(terminal, i)
  }

  function CostNames(running: seq<string>, terminal: seq<string>): (names: seq<string>)
    ensures |names| == 38 + |running| + |terminal|
  {
    seq(38 + |running| + |terminal|, i requires 0 <= i < 38 + |running| + |terminal| =>
      CostName(ColumnAt(i, |running|), running, terminal))
  }

  predicate Starts(names: seq<string>, all: seq<string>) {
    |names| <= |all| && forall i :: 0 <= i < |names| ==> names[i] == all[i]
  }

  method AddScalars(running: seq<string>, terminal: seq<string>) returns (c: seq<string>)
    ensures |c| == 14 && Starts(c, CostNames(running, terminal))
  {
    c := ["t", "mode", "advance_ms", "running_cost_total", "terminal_cost_total"];
    assert Starts(c, CostNames(running, terminal));
    c := c + ["solver_merit", "solver_cost", "solver_dynamics_violation_sse", "solver_equality_sse"];
    assert Starts(c, CostNames(running, terminal));
    c := c + ["solver_dual_feasibility_sse", "solver_equality_lagrangian", "solver_inequality_lagrangian"];
    c := c + ["solver_iterations", "policy_updated"];
  }

  /** The names of the state or reference block: momentum, then position and angles of the base. */
  method AddEntries(columns: seq<string>, prefix: string) returns (c: seq<string>)
    ensures c == columns + seq(ENTRIES, i requires 0 <= i < ENTRIES => EntryName(prefix, i))
  {
    c := DiagnosticsRecorder.AddMomentum(columns, prefix + "_hbar");
    c := DiagnosticsRecorder.AddVector(c, prefix + "_base");
    c := DiagnosticsRecorder.AddEuler(c, prefix + "_base");
  }

  /** The names before the terms. */
  method AddFixed(running: seq<string>, terminal: seq<string>) returns (c: seq<string>)
    ensures |c| == 38 && Starts(c, CostNames(running, terminal))
  {
    var scalars := AddScalars(running, terminal);
    var states := AddEntries(scalars, "x");
    c := AddEntries(states, "ref");
    ghost var all := CostNames(running, terminal);
    forall i | 0 <= i < 38
      ensures c[i] == all[i]
    {
      if i < 14 {
        assert c[i] == states[i] == scalars[i];
      } else if i < 26 {
        assert c[i] == states[i] == EntryName("x", i - 14);
      } else {
        assert c[i] == EntryName("ref", i - 26);
      }
    }
  }

  method AddTerms(columns: seq<string>, prefix: string, terms: seq<string>) returns (c: seq<string>)
    ensures c == columns + seq(|terms|, i requires 0 <= i < |terms| => prefix + terms[i])
  {
    c := columns;
    for i := 0 to |terms|
      invariant c == columns + seq(i, j requires 0 <= j < i => prefix + terms[j])
    {
      c := c + [prefix + terms[i]];
    }
  }

  /** `buildCostSchema`: the names of the cost columns, in order. */
  method BuildCostSchema(running: seq<string>, terminal: seq<string>) returns (c: seq<string>)
    ensures c == CostNames(running, terminal)
  {
    var fixed := AddFixed(running, terminal);
    c := AddTerms(fixed, "run_", running);
    c := AddTerms(c, "term_", terminal);
  }

  // ---- values ----

  function HealthValue(f: HealthField, h: Health): Cell {
    if !h.valid then Unset
    else match f
      case Merit => Value(h.merit)
      case Cost => Value(h.cost)
      case DynamicsViolation => Value(h.dynamicsViolation)
      case EqualityViolation => Value(h.equalityViolation)
      case DualFeasibility => Value(h.dualFeasibility)
      case EqualityLagrangian => Value(h.equalityLagrangian)
      case InequalityLagrangian => Value(h.inequalityLagrangian)
      case Iterations => Value(h.iterations)
      case PolicyUpdated => Flag(h.policyUpdated)
  }

  function EntryValue(v: seq<real>, i: nat): Cell {
    if i < |v| then Value(v[i]) else Unset
  }

  function CostValue(c: CostColumn, d: CostSample): Cell {
    match c
    case CostTime => Value(d.time)
    case CostMode => Value(d.mode)
    case AdvanceMs => Value(d.advanceMs)
    case RunningTotal => Value(d.runningTotal)
    case TerminalTotal => Value(d.terminalTotal)
    case Solver(f) => HealthValue(f, d.health)
    case StateEntry(i) => EntryValue(d.state, i)
    case ReferenceEntry(i) => EntryValue(d.reference, i)
    case RunningTerm(i) => EntryValue(d.running, i)
    case TerminalTerm(i) => EntryValue(d.terminal, i)
  }

  function CostRow(d: CostSample): (row: Row)
    ensures |row| == 38 + |d.running| + |d.terminal|
  {
    seq(38 + |d.running| + |d.terminal|, i requires 0 <= i < 38 + |d.running| + |d.terminal| =>
      CostValue(ColumnAt(i, |d.running|), d))
  }

  /** The cells behind the cursor are the row's, those ahead still unset. */
  ghost predicate WrittenTo(cells: array<Cell>, row: Row, k: nat)
    reads cells
  {
    && k <= cells.Length == |row|
    && (forall i :: 0 <= i < k ==> cells[i] == row[i])
    && (forall i :: k <= i < cells.Length ==> cells[i] == Unset)
  }

  method Put(cells: array<Cell>, cursor: nat, values: seq<Cell>, ghost row: Row) returns (k: nat)
    requires WrittenTo(cells, row, cursor) && cursor + |values| <= cells.Length
    requires forall i :: 0 <= i < |values| ==> values[i] == row[cursor + i]
    modifies cells
    ensures k == cursor + |values| && WrittenTo(cells, row, k)
  {
    k := cursor;
    for i := 0 to |values|
      invariant k == cursor + i && WrittenTo(cells, row, k)
    {
      assert row[cursor + i] == values[i];
      cells[k] := values[i];
      k := k + 1;
    }
  }

  /** Twelve entries: those there are, then the cursor moves on over unset cells. */
  method PutEntries(cells: array<Cell>, cursor: nat, v: seq<real>, ghost row: Row) returns (k: nat)
    requires WrittenTo(cells, row, cursor) && cursor + ENTRIES <= cells.Length
    requires forall i :: cursor <= i < cursor + ENTRIES ==> row[i] == EntryValue(v, i - cursor)
    modifies cells
    ensures k == cursor + ENTRIES && WrittenTo(cells, row, k)
  {
    k := cursor;
    var i := 0;
    while i < ENTRIES && i < |v|
      invariant 0 <= i <= ENTRIES && i <= |v| && k == cursor + i && WrittenTo(cells, row, k)
    {
      cells[k] := Value(v[i]);
      k := k + 1;
      i := i + 1;
    }
    i := |v|;
    while i < ENTRIES
      invariant |v| <= i && k == cursor + (if i < ENTRIES then i else ENTRIES) && WrittenTo(cells, row, k)
    {
      k := k + 1;
      i := i + 1;
    }
  }

  method PutHealth(cells: array<Cell>, h: Health, ghost row: Row) returns (k: nat)
    requires WrittenTo(cells, row, 5) && cells.Length >= 14
    requires forall i :: 5 <= i < 14 ==> row[i] == HealthValue(HealthFieldAt(i - 5), h)
    modifies cells
    ensures k == 14 && WrittenTo(cells, row, k)
  {
    if h.valid {
      k := Put(cells, 5, [Value(h.merit), Value(h.cost), Value(h.dynamicsViolation), Value(h.equalityViolation),
          Value(h.dualFeasibility)], row);
      k := Put(cells, k, [Value(h.equalityLagrangian), Value(h.inequalityLagrangian), Value(h.iterations),
          Flag(h.policyUpdated)], row);
    } else {
      k := 5 + 9;
    }
  }

  /** `recordCost`, on the pre-filled row, once every term has been evaluated. */
  method RecordCost(cells: array<Cell>, d: CostSample) returns (mismatch: bool)
    requires cells.Length == |CostRow(d)| && forall i :: 0 <= i < cells.Length ==> cells[i] == Unset
    modifies cells
    ensures !mismatch && cells[..] == CostRow(d)
  {
    ghost var row := CostRow(d);
    var k := Put(cells, 0, [Value(d.time), Value(d.mode), Value(d.advanceMs), Value(d.runningTotal),
        Value(d.terminalTotal)], row);
    k := PutHealth(cells, d.health, row);
    k := PutEntries(cells, k, d.state, row);
    k := PutEntries(cells, k, d.reference, row);
    for i := 0 to |d.running|
      invariant k == 38 + i && WrittenTo(cells, row, k)
    {
      k := Put(cells, k, [Value(d.running[i])], row);
    }
    for i := 0 to |d.terminal|
      invariant k == 38 + |d.running| + i && WrittenTo(cells, row, k)
    {
      k := Put(cells, k, [Value(d.terminal[i])], row);
    }
    mismatch := k != cells.Length;
  }
}
