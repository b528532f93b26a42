/**
 What the columns of the two diagnostics logs are: their names, in order, and the quantity each
 one stands for. The schema builders and the recorders are proved against this one list.
 */
module DiagnosticsColumns {
  import opened LogRing

  datatype V3 = V3(x: real, y: real, z: real)

  datatype Pose = Pose(p: V3, euler: V3, v: V3, w: V3)

  datatype Contact = Contact(innovation: V3, innovationStd: V3, landmark: V3, corrected: bool, added: bool,
                             removed: bool, inStance: bool, landmarkValid: bool)

  datatype Deviations = Deviations(attitude: V3, velocity: V3, position: V3, gyroBias: V3, accelBias: V3)

  datatype Filter = Filter(std: Deviations, gyroBias: V3, accelBias: V3, estimatingBias: bool,
                           corrected: bool, correctionDim: real, nis: real, nisPerDof: real, augmented: real,
                           contacts: seq<Contact>, anchors: seq<real>,
                           inekfHeight: real, kinematicHeight: real, kinematicValid: bool, reportedHeight: real)

  datatype Joints = Joints(valid: bool, positions: seq<real>, velocities: seq<real>)

  datatype Commands = Commands(valid: bool, positions: seq<real>, velocities: seq<real>, torques: seq<real>)

  /** One state sample; the momenta are what the centroidal model gives for the two sources. */
  datatype Sample = Sample(time: real, phase: real, mode: real, left: bool, right: bool,
                           gt: Pose, gtValid: bool, est: Pose, estValid: bool, errorEuler: V3,
                           estMomentum: seq<real>, gtMomentum: seq<real>,
                           filter: Filter, joints: Joints, commands: Commands)

  // ---- columns of the state log ----

  datatype Scalar = Time | Phase | Mode | ContactLeft | ContactRight | EstimatingBias
                  | CorrApplied | CorrDim | Nis | NisPerDof | Augmented
                  | HeightInekf | HeightKinematic | HeightKinematicValid | HeightReported

  datatype Vec = GtP | GtEuler | GtV | GtW | EstP | EstEuler | EstV | EstW | ErrP | ErrEuler | ErrV | ErrW
               | AttStd | VelStd | PosStd | GyroStd | AccelStd | BiasGyro | BiasAccel

  datatype Momentum = HbarEst | HbarGt | HbarErr

  datatype ContactVec = Innov | InnovStd | Landmark

  datatype ContactScalar = Corrected | Added | Removed | InStance | LandmarkValid | GroundAnchor

  datatype JointBlock = Q | Dq | QCmd | DqCmd | Tau

  datatype Column =
    | ScalarColumn(scalar: Scalar)
    | VecColumn(vec: Vec, axis: nat)
    | MomentumColumn(momentum: Momentum, axis: nat)
    | ContactVecColumn(contact: nat, contactVec: ContactVec, axis: nat)
    | ContactColumn(contact: nat, contactScalar: ContactScalar)
    | JointColumn(block: JointBlock, joint: nat)

  function VecColumns(v: Vec): (c: seq<Column>)
    ensures |c| == 3
  {
    [VecColumn(v, 0), VecColumn(v, 1), VecColumn(v, 2)]
  }

  function HeaderColumns(): (c: seq<Column>)
    ensures |c| == 5
  {
    [ScalarColumn(Time), ScalarColumn(Phase), ScalarColumn(Mode), ScalarColumn(ContactLeft), ScalarColumn(ContactRight)]
  }

  function PoseColumns(p: Vec, euler: Vec, v: Vec, w: Vec): (c: seq<Column>)
    ensures |c| == 12
  {
    VecColumns(p) + VecColumns(euler) + VecColumns(v) + VecColumns(w)
  }

  function MomentumColumns(m: Momentum): (c: seq<Column>)
    ensures |c| == 6
  {
    seq(6, i requires 0 <= i < 6 => MomentumColumn(m, i))
  }

  function FilterVectors(): (c: seq<Column>)
    ensures |c| == 21
  {
    VecColumns(AttStd) + VecColumns(VelStd) + VecColumns(PosStd) + VecColumns(GyroStd) + VecColumns(AccelStd) +
    VecColumns(BiasGyro) + VecColumns(BiasAccel)
  }

  function FilterScalars(): (c: seq<Column>)
    ensures |c| == 6
  {
    [ScalarColumn(EstimatingBias), ScalarColumn(CorrApplied), ScalarColumn(CorrDim), ScalarColumn(Nis),
     ScalarColumn(NisPerDof), ScalarColumn(Augmented)]
  }

  function ContactVecColumns(i: nat, v: ContactVec): (c: seq<Column>)
    ensures |c| == 3
  {
    [ContactVecColumn(i, v, 0), ContactVecColumn(i, v, 1), ContactVecColumn(i, v, 2)]
  }

  function ContactVectors(i: nat): (c: seq<Column>)
    ensures |c| == 9
  {
    ContactVecColumns(i, Innov) + ContactVecColumns(i, InnovStd) + ContactVecColumns(i, Landmark)
  }

  function ContactScalars(i: nat): (c: seq<Column>)
    ensures |c| == 6
  {
    [ContactColumn(i, Corrected), ContactColumn(i, Added), ContactColumn(i, Removed), ContactColumn(i, InStance),
     ContactColumn(i, LandmarkValid), ContactColumn(i, GroundAnchor)]
  }

  function ContactColumns(n: nat): (c: seq<Column>)
    ensures |c| == 15 * n
  {
    if n == 0 then [] else ContactColumns(n - 1) + ContactVectors(n - 1) + ContactScalars(n - 1)
  }

  function HeightColumns(): (c: seq<Column>)
    ensures |c| == 4
  {
    [ScalarColumn(HeightInekf), ScalarColumn(HeightKinematic), ScalarColumn(HeightKinematicValid),
        ScalarColumn(HeightReported)]
  }

  function JointColumns(b: JointBlock, n: nat): (c: seq<Column>)
    ensures |c| == n && forall i :: 0 <= i < n ==> c[i] == JointColumn(b, i)
  {
    seq(n, i requires 0 <= i < n => JointColumn(b, i))
  }

  /** Everything before the contacts. */
  function BodyColumns(): (c: seq<Column>)
    ensures |c| == 86
  {
    HeaderColumns() + PoseColumns(GtP, GtEuler, GtV, GtW) + PoseColumns(EstP, EstEuler, EstV, EstW) +
    PoseColumns(ErrP, ErrEuler, ErrV, ErrW) +
    MomentumColumns(HbarEst) + MomentumColumns(HbarGt) + MomentumColumns(HbarErr) + FilterVectors() + FilterScalars()
  }

  function StateColumns(contacts: nat, joints: nat): (c: seq<Column>)
    ensures |c| == 90 + 15 * contacts + 5 * joints
  {
    BodyColumns() + ContactColumns(contacts) + HeightColumns() +
    JointColumns(Q, joints) + JointColumns(Dq, joints) + JointColumns(QCmd, joints) +
    JointColumns(DqCmd, joints) + JointColumns(Tau, joints)
  }

  // ---- their names ----

  function AxisSuffix(axis: nat): string {
    if axis == 0 then "_x" else if axis == 1 then "_y" else "_z"
  }

  function EulerSuffix(axis: nat): string {
    if axis == 0 then "_yaw" else if axis == 1 then "_pitch" else "_roll"
  }

  function MomentumSuffix(axis: nat): string {
    match axis
    case 0 => "_lin_x"
    case 1 => "_lin_y"
    case 2 => "_lin_z"
    case 3 => "_ang_x"
    case 4 => "_ang_y"
    case _ => "_ang_z"
  }

  function ScalarName(s: Scalar): string {
    match s
    case Time => "t"
    case Phase => "phase"
    case Mode => "mode"
    case ContactLeft => "contact_left"
    case ContactRight => "contact_right"
    case EstimatingBias => "estimating_bias"
    case CorrApplied => "corr_applied"
    case CorrDim => "corr_dim"
    case Nis => "nis"
    case NisPerDof => "nis_per_dof"
    case Augmented => "num_augmented_contacts"
    case HeightInekf => "height_inekf"
    case HeightKinematic => "height_kinematic"
    case HeightKinematicValid => "height_kinematic_valid"
    case HeightReported => "height_reported"
  }

  function VecName(v: Vec): string {
    match v
    case GtP => "gt_p"
    case GtEuler => "gt_euler"
    case GtV => "gt_v_world"
    case GtW => "gt_w_local"
    case EstP => "est_p"
    case EstEuler => "est_euler"
    case EstV => "est_v_world"
    case EstW => "est_w_local"
    case ErrP => "err_p"
    case ErrEuler => "err_euler"
    case ErrV => "err_v_world"
    case ErrW => "err_w_local"
    case AttStd => "P_att_std"
    case VelStd => "P_vel_std"
    case PosStd => "P_pos_std"
    case GyroStd => "P_bg_std"
    case AccelStd => "P_ba_std"
    case BiasGyro => "bias_gyro"
    case BiasAccel => "bias_accel"
  }

  function MomentumName(m: Momentum): string {
    match m case HbarEst => "hbar_est" case HbarGt => "hbar_gt" case HbarErr => "hbar_err"
  }

  function ContactVecName(v: ContactVec): string {
    match v case Innov => "_innov" case InnovStd => "_innov_std" case Landmark => "_landmark"
  }

  function ContactName(s: ContactScalar): string {
    match s
    case Corrected => "_corrected"
    case Added => "_added"
    case Removed => "_removed"
    case InStance => "_in_stance"
    case LandmarkValid => "_landmark_valid"
    case GroundAnchor => "_ground_anchor"
  }

  function BlockName(b: JointBlock): string {
    match b case Q => "q_" case Dq => "dq_" case QCmd => "qcmd_" case DqCmd => "dqcmd_" case Tau => "tau_"
  }

  function NameAt(names: seq<string>, i: nat): string {
    if i < |names| then names[i] else ""
  }

  /** Vectors whose entries are yaw, pitch and roll. */
  predicate IsEuler(v: Vec) { v.GtEuler? || v.EstEuler? || v.ErrEuler? }

  function Name(c: Column, frames: seq<string>, joints: seq<string>): string {
    match c
    case ScalarColumn(s) => ScalarName(s)
    case VecColumn(v, axis) => VecName(v) + (if IsEuler(v) then EulerSuffix(axis) else AxisSuffix(axis))
    case MomentumColumn(m, axis) => MomentumName(m) + MomentumSuffix(axis)
    case ContactVecColumn(i, v, axis) => NameAt(frames, i) + ContactVecName(v) + AxisSuffix(axis)
    case ContactColumn(i, s) => NameAt(frames, i) + ContactName(s)
    case JointColumn(b, i) => BlockName(b) + NameAt(joints, i)
  }

  function Names(c: seq<Column>, frames: seq<string>, joints: seq<string>): (names: seq<string>)
    ensures |names| == |c|
  {
    seq(|c|, i requires 0 <= i < |c| => Name(c[i], frames, joints))
  }

  lemma NamesConcat(a: seq<Column>, b: seq<Column>, frames: seq<string>, joints: seq<string>)
    ensures Names(a + b, frames, joints) == Names(a, frames, joints) + Names(b, frames, joints)
  {
  }

  // ---- the quantities they stand for ----

  function Flag(b: bool): Cell {
    Value(if b then 1.0 else 0.0)
  }

  function Axis(v: V3, axis: nat): Cell {
    Value(if axis == 0 then v.x else if axis == 1 then v.y else v.z)
  }

  function Less(a: V3, b: V3): V3 {
    V3(a.x - b.x, a.y - b.y, a.z - b.z)
  }

  function ScalarValue(s: Scalar, d: Sample): Cell {
    match s
    case Time => Value(d.time)
    case Phase => Value(d.phase)
    case Mode => Value(d.mode)
    case ContactLeft => Flag(d.left)
    case ContactRight => Flag(d.right)
    case EstimatingBias => Flag(d.filter.estimatingBias)
    case CorrApplied => Flag(d.filter.corrected)
    case CorrDim => Value(d.filter.correctionDim)
    case Nis => Value(d.filter.nis)
    case NisPerDof => Value(d.filter.nisPerDof)
    case Augmented => Value(d.filter.augmented)
    case HeightInekf => Value(d.filter.inekfHeight)
    case HeightKinematic => Value(d.filter.kinematicHeight)
    case HeightKinematicValid => Flag(d.filter.kinematicValid)
    case HeightReported => Value(d.filter.reportedHeight)
  }

  function VecValue(v: Vec, d: Sample): V3 {
    match v
    case GtP => d.gt.p
    case GtEuler => d.gt.euler
    case GtV => d.gt.v
    case GtW => d.gt.w
    case EstP => d.est.p
    case EstEuler => d.est.euler
    case EstV => d.est.v
    case EstW => d.est.w
    case ErrP => Less(d.est.p, d.gt.p)
    case ErrEuler => d.errorEuler
    case ErrV => Less(d.est.v, d.gt.v)
    case ErrW => Less(d.est.w, d.gt.w)
    case AttStd => d.filter.std.attitude
    case VelStd => d.filter.std.velocity
    case PosStd => d.filter.std.position
    case GyroStd => d.filter.std.gyroBias
    case AccelStd => d.filter.std.accelBias
    case BiasGyro => d.filter.gyroBias
    case BiasAccel => d.filter.accelBias
  }

  /** The momenta are there when every source is valid and the joint vectors have the model's size. */
  predicate MomentumAvailable(d: Sample, modelJoints: nat) {
    d.joints.valid && d.gtValid && d.estValid && |d.joints.positions| == modelJoints
        && |d.joints.velocities| == modelJoints
  }

  function At(v: seq<real>, i: nat): real {
    if i < |v| then v[i] else 0.0
  }

  function MomentumValue(m: Momentum, d: Sample, axis: nat): real {
    match m
    case HbarEst => At(d.estMomentum, axis)
    case HbarGt => At(d.gtMomentum, axis)
    case HbarErr => At(d.estMomentum, axis) - At(d.gtMomentum, axis)
  }

  function Origin(): V3 { V3(0.0, 0.0, 0.0) }

  function ContactVecValue(v: ContactVec, c: Contact): V3 {
    match v case Innov => c.innovation case InnovStd => c.innovationStd case Landmark => c.landmark
  }

  function ContactFlag(s: ContactScalar, c: Contact): bool {
    match s
    case Corrected => c.corrected
    case Added => c.added
    case Removed => c.removed
    case InStance => c.inStance
    case LandmarkValid => c.landmarkValid
    case GroundAnchor => false
  }

  function ContactValue(s: ContactScalar, f: Filter, i: nat): Cell {
    if s.GroundAnchor? then Value(if i < |f.contacts| && i < |f.anchors| then f.anchors[i] else 0.0)
    else Flag(i < |f.contacts| && ContactFlag(s, f.contacts[i]))
  }

  function JointValue(b: JointBlock, d: Sample, i: nat): Cell {
    var (valid, values) := match b
      case Q => (d.joints.valid, d.joints.positions)
      case Dq => (d.joints.valid, d.joints.velocities)
      case QCmd => (d.commands.valid, d.commands.positions)
      case DqCmd => (d.commands.valid, d.commands.velocities)
      case Tau => (d.commands.valid, d.commands.torques);
    if valid && i < |values| then Value(values[i]) else Unset
  }

  /** The cell that belongs under column `c`. */
  function ValueOf(c: Column, d: Sample, modelJoints: nat): Cell {
    match c
    case ScalarColumn(s) => ScalarValue(s, d)
    case VecColumn(v, axis) => Axis(VecValue(v, d), axis)
    case MomentumColumn(m, axis) =>
      if MomentumAvailable(d, modelJoints) then Value(MomentumValue(m, d, axis)) else Unset
    case ContactVecColumn(i, v, axis) =>
      Axis(if i < |d.filter.contacts| then ContactVecValue(v, d.filter.contacts[i]) else Origin(), axis)
    case ContactColumn(i, s) => ContactValue(s, d.filter, i)
    case JointColumn(b, i) => JointValue(b, d, i)
  }

  function ValuesOf(c: seq<Column>, d: Sample, modelJoints: nat): (row: Row)
    ensures |row| == |c|
  {
    seq(|c|, i requires 0 <= i < |c| => ValueOf(c[i], d, modelJoints))
  }

  lemma ValuesConcat(a: seq<Column>, b: seq<Column>, d: Sample, modelJoints: nat)
    ensures ValuesOf(a + b, d, modelJoints) == ValuesOf(a, d, modelJoints) + ValuesOf(b, d, modelJoints)
  {
  }
}
