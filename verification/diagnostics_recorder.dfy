/**
 The builder of the state log's column names and the recorder that writes a row through an
 advancing cursor: every value lands under the column that stands for it, on every branch.
 */
module DiagnosticsRecorder {
  import opened LogRing
  import opened DiagnosticsColumns

  // ---- names ----

  /** `addVector3Columns`, `addEulerZyxColumns` and `addMomentumColumns`: the suffixes after one name. */
  method AddVector(columns: seq<string>, name: string) returns (c: seq<string>)
    ensures c == columns + [name + "_x", name + "_y", name + "_z"]
  {
    c := columns + [name + "_x"];
    c := c + [name + "_y"];
    c := c + [name + "_z"];
  }

  method AddEuler(columns: seq<string>, name: string) returns (c: seq<string>)
    ensures c == columns + [name + "_yaw", name + "_pitch", name + "_roll"]
  {
    c := columns + [name + "_yaw"];
    c := c + [name + "_pitch"];
    c := c + [name + "_roll"];
  }

  method AddMomentum(columns: seq<string>, name: string) returns (c: seq<string>)
    ensures c == columns + seq(6, i requires 0 <= i < 6 => name + MomentumSuffix(i))
  {
    c := columns;
    for axis := 0 to 6
      invariant c == columns + seq(axis, i requires 0 <= i < axis => name + MomentumSuffix(i))
    {
      c := c + [name + MomentumSuffix(axis)];
    }
  }

  /** The names so far and the columns they are the names of. */
  class Schema {
    const frames: seq<string>
    const joints: seq<string>
    var names: seq<string>
    ghost var columns: seq<Column>

    ghost predicate Valid()
      reads this
    {
      names == Names(columns, frames, joints)
    }

    constructor (frames: seq<string>, joints: seq<string>)
      ensures Valid() && columns == [] && this.frames == frames && this.joints == joints
    {
      this.frames, this.joints, names, columns := frames, joints, [], [];
    }

    ghost method Took(more: seq<Column>)
      requires names == Names(columns, frames, joints) + Names(more, frames, joints)
      modifies `columns
      ensures Valid() && columns == old(columns) + more
    {
      NamesConcat(columns, more, frames, joints);
      columns := columns + more;
    }

    method Vector(name: string, ghost v: Vec)
      requires Valid() && name == VecName(v) && !IsEuler(v)
      modifies this
      ensures Valid() && columns == old(columns) + VecColumns(v)
    {
      names := AddVector(names, name);
      Took(VecColumns(v));
    }

    method Euler(name: string, ghost v: Vec)
      requires Valid() && name == VecName(v) && IsEuler(v)
      modifies this
      ensures Valid() && columns == old(columns) + VecColumns(v)
    {
      names := AddEuler(names, name);
      Took(VecColumns(v));
    }

    method Momenta(name: string, ghost m: Momentum)
      requires Valid() && name == MomentumName(m)
      modifies this
      ensures Valid() && columns == old(columns) + MomentumColumns(m)
    {
      names := AddMomentum(names, name);
      assert Names(MomentumColumns(m), frames, joints) == seq(6, i requires 0 <= i < 6 => name + MomentumSuffix(i));
      Took(MomentumColumns(m));
    }

    method Plain(more: seq<string>, ghost group: seq<Column>)
      requires Valid() && more == Names(group, frames, joints)
      modifies this
      ensures Valid() && columns == old(columns) + group
    {
      names := names + more;
      Took(group);
    }

    method ContactVector(i: nat, suffix: string, ghost v: ContactVec)
      requires Valid() && i < |frames| && suffix == ContactVecName(v)
      modifies this
      ensures Valid() && columns == old(columns) + ContactVecColumns(i, v)
    {
      names := AddVector(names, frames[i] + suffix);
      Took(ContactVecColumns(i, v));
    }

    method Joints(prefix: string, ghost b: JointBlock)
      requires Valid() && prefix == BlockName(b)
      modifies this
      ensures Valid() && columns == old(columns) + JointColumns(b, |joints|)
    {
      for i := 0 to |joints|
        invariant columns == old(columns) && names == old(names) + Names(JointColumns(b, i), frames, joints)
      {
        names := names + [prefix + joints[i]];
      }
      Took(JointColumns(b, |joints|));
    }
  }

  method AddPose(s: Schema, p: string, euler: string, v: string, w: string, ghost ps: Vec, ghost es: Vec,
      ghost vs: Vec, ghost ws: Vec)
    requires s.Valid() && p == VecName(ps) && euler == VecName(es) && v == VecName(vs) && w == VecName(ws)
    requires IsEuler(es) && !IsEuler(ps) && !IsEuler(vs) && !IsEuler(ws)
    modifies s
    ensures s.Valid() && s.columns == old(s.columns) + PoseColumns(ps, es, vs, ws)
  {
    s.Vector(p, ps);
    s.Euler(euler, es);
    s.Vector(v, vs);
    s.Vector(w, ws);
  }

  method AddFilter(s: Schema)
    requires s.Valid()
    modifies s
    ensures s.Valid() && s.columns == old(s.columns) + FilterVectors() + FilterScalars()
  {
    s.Vector("P_att_std", AttStd);
    s.Vector("P_vel_std", VelStd);
    s.Vector("P_pos_std", PosStd);
    s.Vector("P_bg_std", GyroStd);
    s.Vector("P_ba_std", AccelStd);
    s.Vector("bias_gyro", BiasGyro);
    s.Vector("bias_accel", BiasAccel);
    assert s.columns == old(s.columns) + FilterVectors();
    s.Plain(["estimating_bias", "corr_applied", "corr_dim", "nis", "nis_per_dof", "num_augmented_contacts"],
        FilterScalars());
  }

  method AddContacts(s: Schema)
    requires s.Valid()
    modifies s
    ensures s.Valid() && s.columns == old(s.columns) + ContactColumns(|s.frames|)
  {
    for i := 0 to |s.frames|
      invariant s.Valid() && s.columns == old(s.columns) + ContactColumns(i)
    {
      var frame := s.frames[i];
      s.ContactVector(i, "_innov", Innov);
      s.ContactVector(i, "_innov_std", InnovStd);
      s.ContactVector(i, "_landmark", Landmark);
      s.Plain([frame + "_corrected", frame + "_added", frame + "_removed", frame + "_in_stance",
               frame + "_landmark_valid", frame + "_ground_anchor"], ContactScalars(i));
      assert s.columns == old(s.columns) + (ContactColumns(i) + ContactVectors(i) + ContactScalars(i));
    }
  }

  method AddBody(s: Schema)
    requires s.Valid() && s.columns == []
    modifies s
    ensures s.Valid() && s.columns == BodyColumns()
  {
    s.Plain(["t", "phase", "mode", "contact_left", "contact_right"], HeaderColumns());
    AddPose(s, "gt_p", "gt_euler", "gt_v_world", "gt_w_local", GtP, GtEuler, GtV, GtW);
    AddPose(s, "est_p", "est_euler", "est_v_world", "est_w_local", EstP, EstEuler, EstV, EstW);
    AddPose(s, "err_p", "err_euler", "err_v_world", "err_w_local", ErrP, ErrEuler, ErrV, ErrW);
    s.Momenta("hbar_est", HbarEst);
    s.Momenta("hbar_gt", HbarGt);
    s.Momenta("hbar_err", HbarErr);
    AddFilter(s);
    assert [] + HeaderColumns() == HeaderColumns();
  }

  /** `buildStateSchema`: the names of the state columns, in order. */
  method BuildStateSchema(frames: seq<string>, joints: seq<string>) returns (names: seq<string>)
    ensures names == Names(StateColumns(|frames|, |joints|), frames, joints)
  {
    var s := new Schema(frames, joints);
    AddBody(s);
    AddContacts(s);
    s.Plain(["height_inekf", "height_kinematic", "height_kinematic_valid", "height_reported"], HeightColumns());
    s.Joints("q_", Q);
    s.Joints("dq_", Dq);
    s.Joints("qcmd_", QCmd);
    s.Joints("dqcmd_", DqCmd);
    s.Joints("tau_", Tau);
    names := s.names;
  }

  // ---- rows ----

  function Cells(v: V3): (c: seq<Cell>)
    ensures |c| == 3
  {
    [Value(v.x), Value(v.y), Value(v.z)]
  }

  function Numbers(v: seq<real>): (c: seq<Cell>)
    ensures |c| == |v| && forall i :: 0 <= i < |v| ==> c[i] == Value(v[i])
  {
    seq(|v|, i requires 0 <= i < |v| => Value(v[i]))
  }

  /** A row being written: the cells, the cursor, and the columns that are behind it. */
  class Recorder {
    const cells: array<Cell>
    var k: nat
    ghost var columns: seq<Column>
    ghost const sample: Sample
    ghost const modelJoints: nat

    ghost predicate Valid()
      reads this, cells
    {
      && k == |columns| <= cells.Length
      && cells[..k] == ValuesOf(columns, sample, modelJoints)
      && forall i :: k <= i < cells.Length ==> cells[i] == Unset
    }

    /** On the row that `beginRow` has pre-filled. */
    constructor (cells: array<Cell>, ghost sample: Sample, ghost modelJoints: nat)
      requires forall i :: 0 <= i < cells.Length ==> cells[i] == Unset
      ensures Valid() && columns == [] && k == 0
      ensures this.cells == cells && this.sample == sample && this.modelJoints == modelJoints
    {
      this.cells, this.sample, this.modelJoints := cells, sample, modelJoints;
      k, columns := 0, [];
    }

    /** `put`: values into consecutive cells, advancing the cursor. */
    method Put(values: seq<Cell>, ghost group: seq<Column>)
      requires Valid() && values == ValuesOf(group, sample, modelJoints) && k + |values| <= cells.Length
      modifies cells, `k, `columns
      ensures Valid() && columns == old(columns) + group
    {
      ghost var start := k;
      for i := 0 to |values|
        invariant k == start + i && columns == old(columns)
        invariant cells[..start] == old(cells[..start]) && cells[start..k] == values[..i]
        invariant forall j :: k <= j < cells.Length ==> cells[j] == Unset
      {
        cells[k] := values[i];
        k := k + 1;
      }
      assert cells[..k] == cells[..start] + cells[start..k];
      ValuesConcat(columns, group, sample, modelJoints);
      columns := columns + group;
    }

    method PutVec(v: V3, ghost vec: Vec)
      requires Valid() && v == VecValue(vec, sample) && k + 3 <= cells.Length
      modifies cells, `k, `columns
      ensures Valid() && columns == old(columns) + VecColumns(vec)
    {
      Put(Cells(v), VecColumns(vec));
    }

    /** `k += n`: the cells stay as they were pre-filled. */
    method Skip(n: nat, ghost group: seq<Column>)
      requires Valid() && UnsetRow(n) == ValuesOf(group, sample, modelJoints) && k + n <= cells.Length
      modifies `k, `columns
      ensures Valid() && columns == old(columns) + group
    {
      assert cells[..k + n] == cells[..k] + UnsetRow(n);
      ValuesConcat(columns, group, sample, modelJoints);
      columns := columns + group;
      k := k + n;
    }

    /** `put_joint_block`: a missing value leaves its cell unset and still advances the cursor. */
    method PutJoints(values: seq<real>, valid: bool, n: nat, ghost b: JointBlock)
      requires Valid() && k + n <= cells.Length
      requires forall i :: 0 <= i < n ==>
        JointValue(b, sample, i) == if valid && i < |values| then Value(values[i]) else Unset
      modifies cells, `k, `columns
      ensures Valid() && columns == old(columns) + JointColumns(b, n)
    {
      for i := 0 to n
        invariant Valid() && columns == old(columns) + JointColumns(b, i) && k == old(k) + i
      {
        if valid && i < |values| {
          Put([Value(values[i])], [JointColumn(b, i)]);
        } else {
          Skip(1, [JointColumn(b, i)]);
        }
        assert old(columns) + JointColumns(b, i) + [JointColumn(b, i)] == old(columns) + JointColumns(b, i + 1);
      }
    }
  }

  method PutTwo(r: Recorder, a: V3, b: V3, ghost va: Vec, ghost vb: Vec)
    requires r.Valid() && r.k + 6 <= r.cells.Length && a == VecValue(va, r.sample) && b == VecValue(vb, r.sample)
    modifies r.cells, r
    ensures r.Valid() && r.columns == old(r.columns) + VecColumns(va) + VecColumns(vb)
  {
    r.PutVec(a, va);
    r.PutVec(b, vb);
  }

  method PutPose(r: Recorder, p: V3, euler: V3, v: V3, w: V3,
                 ghost ps: Vec, ghost es: Vec, ghost vs: Vec, ghost ws: Vec)
    requires r.Valid() && r.k + 12 <= r.cells.Length
    requires p == VecValue(ps, r.sample) && euler == VecValue(es, r.sample) && v == VecValue(vs, r.sample)
        && w == VecValue(ws, r.sample)
    modifies r.cells, r
    ensures r.Valid() && r.columns == old(r.columns) + PoseColumns(ps, es, vs, ws)
  {
    PutTwo(r, p, euler, ps, es);
    PutTwo(r, v, w, vs, ws);
  }

  /** The three momentum blocks, or eighteen cells left unset. */
  method PutMomenta(r: Recorder, d: Sample, modelJoints: nat)
    requires r.Valid() && r.k + 18 <= r.cells.Length && d == r.sample && modelJoints == r.modelJoints
        && |d.estMomentum| == |d.gtMomentum| == 6
    modifies r.cells, r
    ensures r.Valid()
    ensures r.columns == old(r.columns) + MomentumColumns(HbarEst) + MomentumColumns(HbarGt) + MomentumColumns(HbarErr)
  {
    if d.joints.valid && d.gtValid && d.estValid && |d.joints.positions| == modelJoints
        && |d.joints.velocities| == modelJoints {
      r.Put(Numbers(d.estMomentum), MomentumColumns(HbarEst));
      r.Put(Numbers(d.gtMomentum), MomentumColumns(HbarGt));
      r.Put(Numbers(seq(6, i requires 0 <= i < 6 => d.estMomentum[i] - d.gtMomentum[i])), MomentumColumns(HbarErr));
    } else {
      ghost var blocks := MomentumColumns(HbarEst) + MomentumColumns(HbarGt) + MomentumColumns(HbarErr);
      assert ValuesOf(blocks, d, modelJoints) == UnsetRow(18);
      r.Skip(18, blocks);
      assert old(r.columns) + blocks
          == old(r.columns) + MomentumColumns(HbarEst) + MomentumColumns(HbarGt) + MomentumColumns(HbarErr);
    }
  }

  method PutDeviations(r: Recorder, std: Deviations)
    requires r.Valid() && r.k + 15 <= r.cells.Length && std == r.sample.filter.std
    modifies r.cells, r
    ensures r.Valid()
    ensures r.columns == old(r.columns) + VecColumns(AttStd) + VecColumns(VelStd) + VecColumns(PosStd) +
                         VecColumns(GyroStd) + VecColumns(AccelStd)
  {
    r.PutVec(std.attitude, AttStd);
    r.PutVec(std.velocity, VelStd);
    r.PutVec(std.position, PosStd);
    r.PutVec(std.gyroBias, GyroStd);
    r.PutVec(std.accelBias, AccelStd);
  }

  method PutFilterVectors(r: Recorder, f: Filter)
    requires r.Valid() && r.k + 21 <= r.cells.Length && f == r.sample.filter
    modifies r.cells, r
    ensures r.Valid() && r.columns == old(r.columns) + FilterVectors()
  {
    PutDeviations(r, f.std);
    r.PutVec(f.gyroBias, BiasGyro);
    r.PutVec(f.accelBias, BiasAccel);
  }

  method PutFilter(r: Recorder, f: Filter)
    requires r.Valid() && r.k + 27 <= r.cells.Length && f == r.sample.filter
    modifies r.cells, r
    ensures r.Valid() && r.columns == old(r.columns) + FilterVectors() + FilterScalars()
  {
    PutFilterVectors(r, f);
    r.Put([Flag(f.estimatingBias), Flag(f.corrected), Value(f.correctionDim),
           Value(f.nis), Value(f.nisPerDof), Value(f.augmented)],
          FilterScalars());
  }

  method PutContact(r: Recorder, f: Filter, i: nat)
    requires r.Valid() && r.k + 15 <= r.cells.Length && f == r.sample.filter
    modifies r.cells, r
    ensures r.Valid() && r.columns == old(r.columns) + ContactVectors(i) + ContactScalars(i)
  {
    var inRange := i < |f.contacts|;
    r.Put(Cells(if inRange then f.contacts[i].innovation else Origin()), ContactVecColumns(i, Innov));
    r.Put(Cells(if inRange then f.contacts[i].innovationStd else Origin()), ContactVecColumns(i, InnovStd));
    r.Put(Cells(if inRange then f.contacts[i].landmark else Origin()), ContactVecColumns(i, Landmark));
    assert r.columns == old(r.columns) + ContactVectors(i);
    r.Put([Flag(inRange && f.contacts[i].corrected), Flag(inRange && f.contacts[i].added),
           Flag(inRange && f.contacts[i].removed),
           Flag(inRange && f.contacts[i].inStance), Flag(inRange && f.contacts[i].landmarkValid),
           Value(if inRange && i < |f.anchors| then f.anchors[i] else 0.0)],
          ContactScalars(i));
  }

  method PutContacts(r: Recorder, f: Filter, n: nat)
    requires r.Valid() && r.k + 15 * n <= r.cells.Length && f == r.sample.filter
    modifies r.cells, r
    ensures r.Valid() && r.columns == old(r.columns) + ContactColumns(n)
  {
    for i := 0 to n
      invariant r.Valid() && r.columns == old(r.columns) + ContactColumns(i)
    {
      PutContact(r, f, i);
      assert r.columns == old(r.columns) + (ContactColumns(i) + ContactVectors(i) + ContactScalars(i));
    }
  }

  method PutPoses(r: Recorder, d: Sample)
    requires r.Valid() && r.k + 36 <= r.cells.Length && d == r.sample
    modifies r.cells, r
    ensures r.Valid() && r.columns == old(r.columns) + PoseColumns(GtP, GtEuler, GtV, GtW) +
                                      PoseColumns(EstP, EstEuler, EstV, EstW) + PoseColumns(ErrP, ErrEuler, ErrV, ErrW)
  {
    PutPose(r, d.gt.p, d.gt.euler, d.gt.v, d.gt.w, GtP, GtEuler, GtV, GtW);
    PutPose(r, d.est.p, d.est.euler, d.est.v, d.est.w, EstP, EstEuler, EstV, EstW);
    PutPose(r, Less(d.est.p, d.gt.p), d.errorEuler, Less(d.est.v, d.gt.v), Less(d.est.w, d.gt.w),
            ErrP, ErrEuler, ErrV, ErrW);
  }

  method PutBody(r: Recorder, d: Sample, modelJoints: nat)
    requires r.Valid() && r.columns == [] && r.cells.Length >= 86 && d == r.sample && modelJoints == r.modelJoints
        && |d.estMomentum| == |d.gtMomentum| == 6
    modifies r.cells, r
    ensures r.Valid() && r.columns == BodyColumns()
  {
    r.Put([Value(d.time), Value(d.phase), Value(d.mode), Flag(d.left), Flag(d.right)], HeaderColumns());
    PutPoses(r, d);
    PutMomenta(r, d, modelJoints);
    PutFilter(r, d.filter);
    assert [] + HeaderColumns() == HeaderColumns();
  }

  method PutAllJoints(r: Recorder, d: Sample, n: nat)
    requires r.Valid() && r.k + 5 * n <= r.cells.Length && d == r.sample
    modifies r.cells, r
    ensures r.Valid()
    ensures r.columns == old(r.columns) + JointColumns(Q, n) + JointColumns(Dq, n) + JointColumns(QCmd, n) +
                         JointColumns(DqCmd, n) + JointColumns(Tau, n)
  {
    r.PutJoints(d.joints.positions, d.joints.valid, n, Q);
    r.PutJoints(d.joints.velocities, d.joints.valid, n, Dq);
    r.PutJoints(d.commands.positions, d.commands.valid, n, QCmd);
    r.PutJoints(d.commands.velocities, d.commands.valid, n, DqCmd);
    r.PutJoints(d.commands.torques, d.commands.valid, n, Tau);
  }

  /**
   `recordState`, on the row that `beginRow` has pre-filled: whatever is missing, the cursor ends
   at the declared width and cell `i` holds what column `i` stands for.
   */
  method RecordState(cells: array<Cell>, d: Sample, contacts: nat, joints: nat, modelJoints: nat)
    returns (mismatch: bool)
    requires cells.Length == |StateColumns(contacts, joints)| && |d.estMomentum| == |d.gtMomentum| == 6
    requires forall i :: 0 <= i < cells.Length ==> cells[i] == Unset
    modifies cells
    ensures !mismatch && cells[..] == ValuesOf(StateColumns(contacts, joints), d, modelJoints)
  {
    var r := new Recorder(cells, d, modelJoints);
    PutBody(r, d, modelJoints);
    PutContacts(r, d.filter, contacts);
    r.Put([Value(d.filter.inekfHeight), Value(d.filter.kinematicHeight),
           Flag(d.filter.kinematicValid), Value(d.filter.reportedHeight)],
          HeightColumns());
    PutAllJoints(r, d, joints);
    mismatch := r.k != cells.Length;
    assert cells[..] == cells[..r.k];
  }
}
