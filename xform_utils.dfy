/**
 * TransformPrimSRT and get_srt_xform_from_prim: writing a translate /
 * rotate / scale transform onto a prim's op stack without disturbing the ops
 * it does not touch, and reading it back.
 *
 * The op stack is the `ops` sequence of a UsdXform.Xformable. Every step that
 * edits it is a method of TransformPrimSRT, specified by a pure function of
 * the stack before the call (FindOrAddPlan, SrtPlan, SrtOutcome); what the
 * sample promises is then proved about those functions.
 */
module XformUtils {
  import opened Common
  import opened UsdXform

  // ---------------------------------------------------------------------------
  // Op-type classes and rotation orders
  // ---------------------------------------------------------------------------

  predicate IsSingleAxisRotate(t: OpType) {
    t.TypeRotateX? || t.TypeRotateY? || t.TypeRotateZ?
  }

  predicate IsThreeAxisRotate(t: OpType) {
    t.TypeRotateXYZ? || t.TypeRotateXZY? || t.TypeRotateYXZ? ||
    t.TypeRotateYZX? || t.TypeRotateZXY? || t.TypeRotateZYX?
  }

  /** The types the sample treats as rotations. */
  predicate IsRotateType(t: OpType) {
    IsSingleAxisRotate(t) || IsThreeAxisRotate(t) || t.TypeOrient?
  }

  /** The sample tests for a rotation as RotateX <= type <= Orient in the enumeration. */
  lemma RotateRangeIsRotateType(t: OpType)
    ensures Ordinal(TypeRotateX) <= Ordinal(t) <= Ordinal(TypeOrient) <==> IsRotateType(t)
  {
  }

  predicate IsRotateOp(op: XformOp) { IsRotateType(op.opType) }

  predicate IsTransformOp(op: XformOp) { op.opType == TypeTransform }

  /** The rotation order can be used to index a three-element Python list
      (negative entries count from the end); any other entry raises IndexError. */
  predicate Indexable(order: Vec3i) {
    -3 <= order.x < 3 && -3 <= order.y < 3 && -3 <= order.z < 3
  }

  /** The list position Python reads for index `i` of a three-element list. */
  function PyAxis(i: int): (a: nat)
    requires -3 <= i < 3
    ensures a < 3 && (a == i || a == i + 3)
  {
    if i < 0 then i + 3 else i
  }

  /** A rotation order naming each of the three axes once. */
  predicate IsAxisPermutation(order: Vec3i) {
    0 <= order.x < 3 && 0 <= order.y < 3 && 0 <= order.z < 3 &&
    order.x != order.y && order.x != order.z && order.y != order.z
  }

  function AxisLetter(a: int): char
    requires 0 <= a < 3
  {
    if a == 0 then 'X' else if a == 1 then 'Y' else 'Z'
  }

  /** TypeRotateX, TypeRotateY or TypeRotateZ for axis 0, 1, 2. */
  function AxisType(a: nat): (t: OpType)
    requires a < 3
    ensures IsSingleAxisRotate(t) && Token(t) == "rotate" + [AxisLetter(a)]
  {
    if a == 0 then TypeRotateX else if a == 1 then TypeRotateY else TypeRotateZ
  }

  /** _get_rotation_order_type: the three-axis rotate type whose token spells
      the axes of a permutation in order; any other vector gives `default`. */
  function RotationOrderType(order: Vec3i, default: OpType): (r: OpType)
    ensures IsAxisPermutation(order) ==>
              IsThreeAxisRotate(r) &&
              Token(r) == "rotate" + [AxisLetter(order.x), AxisLetter(order.y), AxisLetter(order.z)]
    ensures !IsAxisPermutation(order) ==> r == default
  {
    if order == Vec3i(0, 1, 2) then TypeRotateXYZ
    else if order == Vec3i(0, 2, 1) then TypeRotateXZY
    else if order == Vec3i(1, 0, 2) then TypeRotateYXZ
    else if order == Vec3i(1, 2, 0) then TypeRotateYZX
    else if order == Vec3i(2, 0, 1) then TypeRotateZXY
    else if order == Vec3i(2, 1, 0) then TypeRotateZYX
    else default
  }

  /** Distinct permutations are mapped to distinct rotate types. */
  lemma RotationOrderTypeInjective(a: Vec3i, b: Vec3i, default: OpType)
    requires IsAxisPermutation(a) && IsAxisPermutation(b)
    requires RotationOrderType(a, default) == RotationOrderType(b, default)
    ensures a == b
  {
    var ta := Token(RotationOrderType(a, default));
    assert ta[6] == AxisLetter(a.x) && ta[7] == AxisLetter(a.y) && ta[8] == AxisLetter(a.z);
  }

  // ---------------------------------------------------------------------------
  // Time samples
  // ---------------------------------------------------------------------------

  datatype TimeCode = Default | At(value: real)

  /** Python's round() of a float to an int: nearest integer, ties to even. */
  function PyRound(v: real): int {
    var f := v.Floor;
    var d := v - f as real;
    if d < 0.5 then f
    else if d > 0.5 then f + 1
    else if f % 2 == 0 then f
    else f + 1
  }

  lemma PyRoundExactIffIntegral(v: real)
    ensures PyRound(v) as real == v <==> v.Floor as real == v
  {
    var f := v.Floor;
    assert f as real <= v < f as real + 1.0;
  }

  /** _has_time_sample: never at the default time, never at a non-integral
      time, and otherwise exactly when the time is among the op's samples. */
  function HasTimeSample(op: XformOp, tc: TimeCode): (r: bool)
    ensures r <==> tc.At? && tc.value.Floor as real == tc.value && tc.value in op.timeSamples
  {
    if tc.Default? then false
    else
      PyRoundExactIffIntegral(tc.value);
      if PyRound(tc.value) as real != tc.value then false
      else tc.value in op.timeSamples
  }

  // ---------------------------------------------------------------------------
  // Finding or adding an op
  // ---------------------------------------------------------------------------

  /** The name rule of _find_or_add: no suffix asks for a name with a single
      ':' ("xformOp:translate"), a suffix asks for a name ending in it. */
  predicate NameMatches(op: XformOp, suffix: string) {
    (suffix == "" && CountChar(op.name, ':') == 1) || (suffix != "" && EndsWith(op.name, suffix))
  }

  predicate Matches(t: OpType, suffix: string, op: XformOp) {
    op.opType == t && NameMatches(op, suffix)
  }

  /** What a step returns and the op stack it leaves behind. */
  datatype Found = Found(op: Option<XformOp>, ops: seq<XformOp>)

  /** _find_or_add on stack `ops`: the first matching op, else a new op
      appended when `create` is set, else nothing. */
  function FindOrAddPlan(ops: seq<XformOp>, t: OpType, create: bool, precision: Precision, suffix: string): (r: Found)
    ensures create ==> r.op.Some?
    ensures r.op.Some? ==> Matches(t, suffix, r.op.value)
  {
    match FirstIndexWhere(ops, (op: XformOp) => Matches(t, suffix, op))
    case Some(i) => Found(Some(ops[i]), ops)
    case None =>
      if create then
        var op := NewOp(t, precision, suffix);
        OpNameShape(t, suffix);
        Found(Some(op), ops + [op])
      else Found(None, ops)
  }

  /** _find_or_add returns the first op of the stack with the requested type
      and name; only when there is none and creation is on does it add one,
      exactly one, at the end; otherwise the stack is left as it was. */
  lemma FindOrAddPlanFirstMatch(ops: seq<XformOp>, t: OpType, create: bool, precision: Precision, suffix: string)
    ensures var r := FindOrAddPlan(ops, t, create, precision, suffix);
            (r.op.Some? <==> create || exists i :: 0 <= i < |ops| && Matches(t, suffix, ops[i])) &&
            (r.ops == ops || (r.ops == ops + [NewOp(t, precision, suffix)] && r.op == Some(NewOp(t, precision, suffix)))) &&
            (r.ops != ops <==> create && forall i :: 0 <= i < |ops| ==> !Matches(t, suffix, ops[i])) &&
            (r.op.Some? && r.ops == ops ==>
               exists i :: 0 <= i < |ops| && ops[i] == r.op.value &&
                           forall j :: 0 <= j < i ==> !Matches(t, suffix, ops[j]))
  {
    var p := (op: XformOp) => Matches(t, suffix, op);
    match FirstIndexWhere(ops, p)
    case Some(i) =>
      assert p(ops[i]);
    case None =>
  }

  /** A second _find_or_add with the same arguments finds what the first
      returned and adds nothing: an op AddXformOp creates satisfies the name rule. */
  lemma FindOrAddIdempotent(ops: seq<XformOp>, t: OpType, create: bool, precision: Precision, suffix: string)
    ensures var r := FindOrAddPlan(ops, t, create, precision, suffix);
            FindOrAddPlan(r.ops, t, create, precision, suffix) == Found(r.op, r.ops)
  {
    var p := (op: XformOp) => Matches(t, suffix, op);
    var r := FindOrAddPlan(ops, t, create, precision, suffix);
    if r.ops != ops {
      var op := NewOp(t, precision, suffix);
      assert FirstIndexWhere(ops, p).None?;
      FirstIndexWhereAppend(ops, [op], p);
      assert p(op);
      assert FirstIndexWhere([op], p) == Some(0);
    }
  }

  // ---------------------------------------------------------------------------
  // The op/value list
  // ---------------------------------------------------------------------------

  /** One op of the list _get_srt_xform_op_values returns, with the value to write. */
  datatype OpAssignment = OpAssignment(op: XformOp, value: OpValue)

  datatype Plan = Plan(assignments: seq<OpAssignment>, ops: seq<XformOp>)

  /** The constructor arguments a TransformPrimSRT writes. */
  datatype SrtArgs = SrtArgs(translation: Vec3, euler: Vec3, order: Vec3i, scale: Vec3)

  /** _get_first_rotate_type on stack `ops`. */
  function FirstRotateTypeSpec(ops: seq<XformOp>, order: Vec3i): (OpType, Precision) {
    match FirstIndexWhere(ops, IsRotateOp)
    case Some(i) => (ops[i].opType, ops[i].precision)
    case None =>
      var t := RotationOrderType(order, TypeInvalid);
      (if t == TypeInvalid then TypeOrient else t, PrecisionDouble)
  }

  /** The first rotate type is always a rotation, so the sample's "failed to
      determine rotation type" branch is never taken; without a rotate op on
      the stack it is a three-axis type or Orient, in double precision. */
  lemma FirstRotateTypeIsRotation(ops: seq<XformOp>, order: Vec3i)
    ensures IsRotateType(FirstRotateTypeSpec(ops, order).0)
    ensures FirstIndexWhere(ops, IsRotateOp).None? ==>
              var (t, p) := FirstRotateTypeSpec(ops, order);
              p == PrecisionDouble &&
              (if IsAxisPermutation(order) then t == RotationOrderType(order, TypeInvalid) else t == TypeOrient)
  {
  }

  /** Appending a translate op does not change the first rotate type. */
  lemma FirstRotateTypeAfterTranslate(ops: seq<XformOp>, order: Vec3i, precision: Precision)
    ensures FirstRotateTypeSpec(ops + [NewOp(TypeTranslate, precision, "")], order) == FirstRotateTypeSpec(ops, order)
  {
    var op := NewOp(TypeTranslate, precision, "");
    assert !IsRotateOp(op);
    FirstIndexWhereAppend(ops, [op], IsRotateOp);
    match FirstIndexWhere(ops, IsRotateOp)
    case Some(i) =>
      assert (ops + [op])[i] == ops[i];
    case None =>
  }

  /** The stack after the translate op of _get_srt_xform_op_values. */
  function AfterTranslate(ops: seq<XformOp>): seq<XformOp> {
    FindOrAddPlan(ops, TypeTranslate, true, PrecisionDouble, "").ops
  }

  /** When _get_srt_xform_op_values raises no IndexError: only the three-axis
      branch leaves the rotation order unused as a list index. */
  predicate SrtDefined(ops: seq<XformOp>, order: Vec3i) {
    IsThreeAxisRotate(FirstRotateTypeSpec(ops, order).0) || Indexable(order)
  }

  /** The number of ops the single-axis branch visits. */
  const AxisCount: nat := 3

  /** The first `n` rotate ops of the single-axis branch, which visits
      rotation-order positions 2, 1, 0. */
  function SingleAxisPlan(ops: seq<XformOp>, a: SrtArgs, precision: Precision, n: nat): Plan
    requires n <= 3 && Indexable(a.order)
    decreases n
  {
    if n == 0 then Plan([], ops)
    else
      var prev := SingleAxisPlan(ops, a, precision, n - 1);
      var axis := PyAxis(a.order.At(3 - n));
      var f := FindOrAddPlan(prev.ops, AxisType(axis), true, precision, "");
      Plan(prev.assignments + [OpAssignment(f.op.value, Angle(Component(a.euler, axis)))], f.ops)
  }

  lemma SingleAxisPlanNext(ops: seq<XformOp>, a: SrtArgs, precision: Precision, n: nat)
    requires n < 3 && Indexable(a.order)
    ensures var prev := SingleAxisPlan(ops, a, precision, n);
            var axis := PyAxis(a.order.At(2 - n));
            var f := FindOrAddPlan(prev.ops, AxisType(axis), true, precision, "");
            SingleAxisPlan(ops, a, precision, n + 1) ==
              Plan(prev.assignments + [OpAssignment(f.op.value, Angle(Component(a.euler, axis)))], f.ops)
  {
  }

  /** The three-axis and Orient branches of RotatePlan: one op found or added. */
  lemma RotatePlanOneOp(ops: seq<XformOp>, t: OpType, precision: Precision, a: SrtArgs)
    requires IsThreeAxisRotate(t) || t == TypeOrient
    requires IsThreeAxisRotate(t) || Indexable(a.order)
    ensures var f := FindOrAddPlan(ops, t, true, precision, "");
            RotatePlan(ops, t, precision, a) ==
              Plan([OpAssignment(f.op.value, if t == TypeOrient then Orientation(a.euler, a.order) else Vector(a.euler))], f.ops)
  {
    if t == TypeOrient {
      RotatePlanOrient(ops, precision, a);
    } else {
      RotatePlanThreeAxis(ops, t, precision, a);
    }
  }

  lemma RotatePlanThreeAxis(ops: seq<XformOp>, t: OpType, precision: Precision, a: SrtArgs)
    requires IsThreeAxisRotate(t)
    ensures var f := FindOrAddPlan(ops, t, true, precision, "");
            RotatePlan(ops, t, precision, a) == Plan([OpAssignment(f.op.value, Vector(a.euler))], f.ops)
  {
  }

  lemma RotatePlanOrient(ops: seq<XformOp>, precision: Precision, a: SrtArgs)
    requires Indexable(a.order)
    ensures var f := FindOrAddPlan(ops, TypeOrient, true, precision, "");
            RotatePlan(ops, TypeOrient, precision, a) == Plan([OpAssignment(f.op.value, Orientation(a.euler, a.order))], f.ops)
  {
  }

  /** The rotation part of _get_srt_xform_op_values for first rotate type `t`. */
  function RotatePlan(ops: seq<XformOp>, t: OpType, precision: Precision, a: SrtArgs): Plan
    requires IsThreeAxisRotate(t) || Indexable(a.order)
  {
    if IsSingleAxisRotate(t) then SingleAxisPlan(ops, a, precision, AxisCount)
    else if IsThreeAxisRotate(t) then
      var f := FindOrAddPlan(ops, t, true, precision, "");
      Plan([OpAssignment(f.op.value, Vector(a.euler))], f.ops)
    else if t == TypeOrient then
      var f := FindOrAddPlan(ops, t, true, precision, "");
      Plan([OpAssignment(f.op.value, Orientation(a.euler, a.order))], f.ops)
    else Plan([], ops)
  }

  /** A single-axis type plans the three axis ops; a type that is no rotation
      plans nothing. */
  lemma RotatePlanCases(ops: seq<XformOp>, t: OpType, precision: Precision, a: SrtArgs)
    requires IsThreeAxisRotate(t) || Indexable(a.order)
    ensures IsSingleAxisRotate(t) ==> RotatePlan(ops, t, precision, a) == SingleAxisPlan(ops, a, precision, AxisCount)
    ensures !IsSingleAxisRotate(t) && !IsThreeAxisRotate(t) && t != TypeOrient ==> RotatePlan(ops, t, precision, a) == Plan([], ops)
  {
  }

  /** _get_srt_xform_op_values on stack `ops`: the translate op, the rotate
      op(s), the scale op, with the values to write and the resulting stack. */
  function SrtPlan(ops: seq<XformOp>, a: SrtArgs): Plan
    requires SrtDefined(ops, a.order)
  {
    var tr := FindOrAddPlan(ops, TypeTranslate, true, PrecisionDouble, "");
    FirstRotateTypeAfterTranslate(ops, a.order, PrecisionDouble);
    var (rt, precision) := FirstRotateTypeSpec(tr.ops, a.order);
    var rot := RotatePlan(tr.ops, rt, precision, a);
    var sc := FindOrAddPlan(rot.ops, TypeScale, true, PrecisionDouble, "");
    Plan([OpAssignment(tr.op.value, Vector(a.translation))] + rot.assignments +
         [OpAssignment(sc.op.value, Vector(a.scale))], sc.ops)
  }

  /** Entry k of the single-axis list: the rotate op for rotation-order
      position 2 - k, with that axis's angle. */
  predicate AxisEntry(e: OpAssignment, a: SrtArgs, k: int)
    requires 0 <= k < 3 && Indexable(a.order)
  {
    var axis := PyAxis(a.order.At(2 - k));
    e.op.opType == AxisType(axis) && e.value == Angle(Component(a.euler, axis))
  }

  /** Each round appends exactly one entry, the one for its position. */
  lemma SingleAxisPlanStep(ops: seq<XformOp>, a: SrtArgs, precision: Precision, n: nat)
    requires 0 < n <= 3 && Indexable(a.order)
    ensures var p := SingleAxisPlan(ops, a, precision, n).assignments;
            var q := SingleAxisPlan(ops, a, precision, n - 1).assignments;
            |p| == |q| + 1 && (forall k :: 0 <= k < |q| ==> p[k] == q[k]) && AxisEntry(p[|q|], a, n - 1)
  {
    SingleAxisPlanNext(ops, a, precision, n - 1);
  }

  lemma {:induction false} SingleAxisPlanShape(ops: seq<XformOp>, a: SrtArgs, precision: Precision, n: nat)
    requires n <= 3 && Indexable(a.order)
    ensures var p := SingleAxisPlan(ops, a, precision, n).assignments;
            |p| == n && forall k :: 0 <= k < n ==> AxisEntry(p[k], a, k)
    decreases n
  {
    if n > 0 {
      SingleAxisPlanShape(ops, a, precision, n - 1);
      SingleAxisPlanStep(ops, a, precision, n);
    }
  }

  /** In the single-axis case the rotation part holds three rotate ops, for
      rotation-order positions 2, 1, 0. */
  lemma RotatePlanSingleAxis(ops: seq<XformOp>, t: OpType, precision: Precision, a: SrtArgs)
    requires IsSingleAxisRotate(t) && Indexable(a.order)
    ensures var p := RotatePlan(ops, t, precision, a).assignments;
            |p| == 3 && forall k :: 0 <= k < 3 ==> AxisEntry(p[k], a, k)
  {
    SingleAxisPlanShape(ops, a, precision, AxisCount);
  }

  /** Otherwise it holds a single op of the first rotate type. */
  lemma RotatePlanSingleOp(ops: seq<XformOp>, t: OpType, precision: Precision, a: SrtArgs)
    requires IsRotateType(t) && !IsSingleAxisRotate(t) && (IsThreeAxisRotate(t) || Indexable(a.order))
    ensures var p := RotatePlan(ops, t, precision, a);
            |p.assignments| == 1 && p.assignments[0].op.opType == t
  {
    var f := FindOrAddPlan(ops, t, true, precision, "");
    if !IsThreeAxisRotate(t) {
      assert t == TypeOrient;
    }
  }

  /** The rotation part of SrtPlan: the rotate ops for the first rotate type
      of the stack once the translate op is in place. */
  function SrtRotation(ops: seq<XformOp>, a: SrtArgs): Plan
    requires SrtDefined(ops, a.order)
  {
    var tr := FindOrAddPlan(ops, TypeTranslate, true, PrecisionDouble, "");
    FirstRotateTypeAfterTranslate(ops, a.order, PrecisionDouble);
    var (rt, precision) := FirstRotateTypeSpec(tr.ops, a.order);
    RotatePlan(tr.ops, rt, precision, a)
  }

  /** s is an entry of type first carrying firstValue, then mid, then an
      entry of type last carrying lastValue; both end entries have unsuffixed names. */
  predicate Framed(s: seq<OpAssignment>, first: OpType, firstValue: OpValue, mid: seq<OpAssignment>,
                   last: OpType, lastValue: OpValue)
  {
    |s| == |mid| + 2 &&
    s[0].op.opType == first && NameMatches(s[0].op, "") && s[0].value == firstValue &&
    s[1..|s| - 1] == mid &&
    s[|s| - 1].op.opType == last && NameMatches(s[|s| - 1].op, "") && s[|s| - 1].value == lastValue
  }

  /** The op/value list starts with a translate op carrying the translation
      and ends with a scale op carrying the scale; in between is the
      non-empty rotation part. */
  lemma SrtPlanShape(ops: seq<XformOp>, a: SrtArgs)
    requires SrtDefined(ops, a.order)
    ensures |SrtRotation(ops, a).assignments| >= 1
    ensures Framed(SrtPlan(ops, a).assignments, TypeTranslate, Vector(a.translation),
                   SrtRotation(ops, a).assignments, TypeScale, Vector(a.scale))
  {
    var tr := FindOrAddPlan(ops, TypeTranslate, true, PrecisionDouble, "");
    FirstRotateTypeAfterTranslate(ops, a.order, PrecisionDouble);
    var (rt, precision) := FirstRotateTypeSpec(tr.ops, a.order);
    RotatePlanNonEmpty(tr.ops, rt, precision, a);
    var rot := RotatePlan(tr.ops, rt, precision, a);
    var sc := FindOrAddPlan(rot.ops, TypeScale, true, PrecisionDouble, "");
    ConcatThree(OpAssignment(tr.op.value, Vector(a.translation)), rot.assignments, OpAssignment(sc.op.value, Vector(a.scale)));
  }

  /** The rotation part is never empty. */
  lemma RotatePlanNonEmpty(ops: seq<XformOp>, t: OpType, precision: Precision, a: SrtArgs)
    requires IsRotateType(t) && (IsThreeAxisRotate(t) || Indexable(a.order))
    ensures |RotatePlan(ops, t, precision, a).assignments| >= 1
  {
    if IsSingleAxisRotate(t) {
      RotatePlanSingleAxis(ops, t, precision, a);
    } else {
      RotatePlanSingleOp(ops, t, precision, a);
    }
  }

  lemma ConcatThree<T>(x: T, mid: seq<T>, y: T)
    ensures var s := [x] + mid + [y];
            |s| == |mid| + 2 && s[0] == x && s[1..|s| - 1] == mid && s[|s| - 1] == y
  {
    var s := [x] + mid + [y];
    assert s[1..|s| - 1] == mid;
  }

  // ---------------------------------------------------------------------------
  // Writing the values and merging the op order
  // ---------------------------------------------------------------------------

  /** The ops of an op/value list, in list order. */
  function OpsOf(assigns: seq<OpAssignment>): (r: seq<XformOp>)
    ensures |r| == |assigns| && forall k :: 0 <= k < |r| ==> r[k] == assigns[k].op
  {
    seq(|assigns|, k requires 0 <= k < |assigns| => assigns[k].op)
  }

  /** The attribute values after setting each op of the list in turn; a later
      write to the same op replaces an earlier one. */
  function WriteAll(values: map<XformOp, OpValue>, assigns: seq<OpAssignment>): map<XformOp, OpValue>
    decreases |assigns|
  {
    if assigns == [] then values
    else WriteAll(values[assigns[0].op := assigns[0].value], assigns[1..])
  }

  /** An op that is not in the list keeps its value (or its absence). */
  lemma {:induction false} WriteAllUntouched(values: map<XformOp, OpValue>, assigns: seq<OpAssignment>, op: XformOp)
    requires op !in OpsOf(assigns)
    ensures op in WriteAll(values, assigns) <==> op in values
    ensures op in values ==> WriteAll(values, assigns)[op] == values[op]
    decreases |assigns|
  {
    if assigns != [] {
      assert OpsOf(assigns) == [assigns[0].op] + OpsOf(assigns[1..]);
      WriteAllUntouched(values[assigns[0].op := assigns[0].value], assigns[1..], op);
    }
  }

  /** An op of the list ends up with the value of its last write. */
  lemma {:induction false} WriteAllLast(values: map<XformOp, OpValue>, assigns: seq<OpAssignment>, k: nat)
    requires k < |assigns| && assigns[k].op !in OpsOf(assigns[k + 1..])
    ensures assigns[k].op in WriteAll(values, assigns)
    ensures WriteAll(values, assigns)[assigns[k].op] == assigns[k].value
    decreases |assigns|
  {
    var v1 := values[assigns[0].op := assigns[0].value];
    if k == 0 {
      WriteAllUntouched(v1, assigns[1..], assigns[0].op);
    } else {
      assert assigns[1..][k - 1] == assigns[k];
      assert assigns[1..][k..] == assigns[k + 1..];
      WriteAllLast(v1, assigns[1..], k - 1);
    }
  }

  /** The index Python's list.index returns: the first occurrence. */
  function IndexOf<T(==)>(s: seq<T>, x: T): (k: nat)
    requires x in s
    ensures k < |s| && s[k] == x && x !in s[..k]
    decreases |s|
  {
    if s[0] == x then 0
    else
      var k := IndexOf(s[1..], x);
      assert s[..k + 1] == [s[0]] + s[1..][..k];
      k + 1
  }

  /** `s` without its first occurrence of `x`, as list.pop(list.index(x)) leaves it. */
  function RemoveFirst<T(==)>(s: seq<T>, x: T): seq<T>
    decreases |s|
  {
    if s == [] then []
    else if s[0] == x then s[1..]
    else [s[0]] + RemoveFirst(s[1..], x)
  }

  lemma {:induction false} RemoveFirstAt<T>(s: seq<T>, x: T)
    requires x in s
    ensures RemoveFirst(s, x) == s[..IndexOf(s, x)] + s[IndexOf(s, x) + 1..]
    decreases |s|
  {
    if s[0] != x {
      RemoveFirstAt(s[1..], x);
      var k := IndexOf(s[1..], x);
      assert s[..k + 1] == [s[0]] + s[1..][..k];
      assert s[k + 2..] == s[1..][k + 1..];
    }
  }

  lemma {:induction false} RemoveFirstMultiset<T>(s: seq<T>, x: T)
    requires x in s
    ensures multiset(RemoveFirst(s, x)) == multiset(s) - multiset{x}
    decreases |s|
  {
    if s[0] == x {
      assert s == [s[0]] + s[1..];
    } else {
      RemoveFirstMultiset(s[1..], x);
      assert s == [s[0]] + s[1..];
    }
  }

  lemma {:induction false} RemoveFirstOther<T>(s: seq<T>, x: T, y: T)
    requires x != y
    ensures y in RemoveFirst(s, x) <==> y in s
    decreases |s|
  {
    if s != [] && s[0] != x {
      RemoveFirstOther(s[1..], x, y);
    }
  }

  /** The order _set_transform_as_srt writes: walking the stack, each op that
      is still pending is taken out of the pending list; what remains pending
      follows, in pending order. */
  function MergeOrder(stack: seq<XformOp>, pending: seq<XformOp>): seq<XformOp>
    decreases |stack|
  {
    if stack == [] then pending
    else if stack[0] in pending then [stack[0]] + MergeOrder(stack[1..], RemoveFirst(pending, stack[0]))
    else MergeOrder(stack[1..], pending)
  }

  /** Each op just set appears in the new order exactly as often as in the
      list, and no other op: stack ops that were not set are dropped. */
  lemma {:induction false} MergeOrderPermutation(stack: seq<XformOp>, pending: seq<XformOp>)
    ensures multiset(MergeOrder(stack, pending)) == multiset(pending)
    decreases |stack|
  {
    if stack != [] {
      if stack[0] in pending {
        MergeOrderPermutation(stack[1..], RemoveFirst(pending, stack[0]));
        RemoveFirstMultiset(pending, stack[0]);
      } else {
        MergeOrderPermutation(stack[1..], pending);
      }
    }
  }

  predicate Distinct(s: seq<XformOp>) {
    forall i, j :: 0 <= i < j < |s| ==> s[i] != s[j]
  }

  function KeepIn(s: seq<XformOp>, t: seq<XformOp>): seq<XformOp>
    decreases |s|
  {
    if s == [] then [] else (if s[0] in t then [s[0]] else []) + KeepIn(s[1..], t)
  }

  function KeepNotIn(s: seq<XformOp>, t: seq<XformOp>): seq<XformOp>
    decreases |s|
  {
    if s == [] then [] else (if s[0] !in t then [s[0]] else []) + KeepNotIn(s[1..], t)
  }

  lemma {:induction false} KeepInRemove(s: seq<XformOp>, p: seq<XformOp>, x: XformOp)
    requires x !in s
    ensures KeepIn(s, RemoveFirst(p, x)) == KeepIn(s, p)
    decreases |s|
  {
    if s != [] {
      RemoveFirstOther(p, x, s[0]);
      KeepInRemove(s[1..], p, x);
    }
  }

  lemma {:induction false} KeepNotInRemove(s: seq<XformOp>, p: seq<XformOp>, x: XformOp)
    requires Distinct(p) && s != [] && s[0] == x
    ensures KeepNotIn(RemoveFirst(p, x), s[1..]) == KeepNotIn(p, s)
    decreases |p|
  {
    if p != [] {
      if p[0] == x {
        assert x !in p[1..] by {
          forall i | 0 <= i < |p[1..]| ensures p[1..][i] != x { assert p[1..][i] == p[i + 1]; }
        }
        KeepNotInDrop(p[1..], s);
      } else {
        assert Distinct(p[1..]) by {
          forall i, j | 0 <= i < j < |p[1..]| ensures p[1..][i] != p[1..][j] {
            assert p[1..][i] == p[i + 1] && p[1..][j] == p[j + 1];
          }
        }
        KeepNotInRemove(s, p[1..], x);
        assert p[0] in s[1..] <==> p[0] in s;
      }
    }
  }

  lemma {:induction false} KeepNotInDrop(p: seq<XformOp>, s: seq<XformOp>)
    requires s != [] && s[0] !in p
    ensures KeepNotIn(p, s[1..]) == KeepNotIn(p, s)
    decreases |p|
  {
    if p != [] {
      assert p[0] in s[1..] <==> p[0] in s;
      KeepNotInDrop(p[1..], s);
    }
  }

  /** With a duplicate-free stack and list, the new order is: the stack ops
      that were set, in stack order, then the set ops not on the stack, in
      list order. */
  lemma {:induction false} MergeOrderDistinct(stack: seq<XformOp>, pending: seq<XformOp>)
    requires Distinct(stack) && Distinct(pending)
    ensures MergeOrder(stack, pending) == KeepIn(stack, pending) + KeepNotIn(pending, stack)
    decreases |stack|
  {
    if stack == [] {
      KeepNotInNothing(pending);
    } else {
      var x := stack[0];
      var rest := stack[1..];
      assert Distinct(rest) by {
        forall i, j | 0 <= i < j < |rest| ensures rest[i] != rest[j] {
          assert rest[i] == stack[i + 1] && rest[j] == stack[j + 1];
        }
      }
      assert x !in rest by {
        forall i | 0 <= i < |rest| ensures rest[i] != x { assert rest[i] == stack[i + 1]; }
      }
      if x in pending {
        var p1 := RemoveFirst(pending, x);
        RemoveFirstDistinct(pending, x);
        MergeOrderDistinct(rest, p1);
        KeepInRemove(rest, pending, x);
        KeepNotInRemove(stack, pending, x);
        assert MergeOrder(stack, pending) == [x] + MergeOrder(rest, p1);
        assert KeepIn(stack, pending) == [x] + KeepIn(rest, pending);
      } else {
        MergeOrderDistinct(rest, pending);
        KeepNotInDrop(pending, stack);
        assert MergeOrder(stack, pending) == MergeOrder(rest, pending);
        assert KeepIn(stack, pending) == KeepIn(rest, pending);
      }
    }
  }

  lemma {:induction false} KeepNotInNothing(p: seq<XformOp>)
    ensures KeepNotIn(p, []) == p
    decreases |p|
  {
    if p != [] {
      KeepNotInNothing(p[1..]);
    }
  }

  lemma RemoveFirstDistinct(s: seq<XformOp>, x: XformOp)
    requires Distinct(s) && x in s
    ensures Distinct(RemoveFirst(s, x))
  {
    RemoveFirstAt(s, x);
    var k := IndexOf(s, x);
    var r := s[..k] + s[k + 1..];
    DropIndex(s, k);
    forall i, j | 0 <= i < j < |r| ensures r[i] != r[j] {
      assert r[i] == s[if i < k then i else i + 1];
    }
  }

  /** Dropping entry k shifts the entries after it down by one. */
  lemma DropIndex<T>(s: seq<T>, k: nat)
    requires k < |s|
    ensures var r := s[..k] + s[k + 1..];
            |r| == |s| - 1 && forall i :: 0 <= i < |r| ==> r[i] == s[if i < k then i else i + 1]
  {
  }

  /** The merge loop of _set_transform_as_srt. */
  method MergeXformOrder(stack: seq<XformOp>, pending: seq<XformOp>) returns (order: seq<XformOp>)
    ensures order == MergeOrder(stack, pending)
  {
    var left := pending;
    order := [];
    var i := 0;
    while i < |stack|
      invariant 0 <= i <= |stack|
      invariant order + MergeOrder(stack[i..], left) == MergeOrder(stack, pending)
    {
      assert stack[i..][1..] == stack[i + 1..];
      if stack[i] in left {
        var k := IndexOf(left, stack[i]);
        RemoveFirstAt(left, stack[i]);
        order := order + [left[k]];
        left := left[..k] + left[k + 1..];
      }
      i := i + 1;
    }
    order := order + left;
  }

  /** The stack and values after _set_transform_as_srt: the list of
      _get_srt_xform_op_values is written, the first existing pivot translate
      is appended to it, and the merged order replaces the stack. */
  function SrtOutcome(ops: seq<XformOp>, values: map<XformOp, OpValue>, a: SrtArgs): (seq<XformOp>, map<XformOp, OpValue>)
    requires SrtDefined(ops, a.order)
  {
    var p := SrtPlan(ops, a);
    var pivot := FindOrAddPlan(p.ops, TypeTranslate, false, PrecisionDouble, "pivot").op;
    var setOps := OpsOf(p.assignments) + (if pivot.Some? then [pivot.value] else []);
    (MergeOrder(p.ops, setOps), WriteAll(values, p.assignments))
  }

  lemma SrtOutcomeParts(ops: seq<XformOp>, values: map<XformOp, OpValue>, a: SrtArgs)
    requires SrtDefined(ops, a.order)
    ensures var p := SrtPlan(ops, a);
            var pivot := FindOrAddPlan(p.ops, TypeTranslate, false, PrecisionDouble, "pivot").op;
            SrtOutcome(ops, values, a) ==
              (MergeOrder(p.ops, OpsOf(p.assignments) + (if pivot.Some? then [pivot.value] else [])),
               WriteAll(values, p.assignments))
  {
  }

  /** The new order holds exactly the ops just written, plus the pivot when
      the stack has one. */
  lemma SrtOrderHoldsSetOps(ops: seq<XformOp>, values: map<XformOp, OpValue>, a: SrtArgs)
    requires SrtDefined(ops, a.order)
    ensures var p := SrtPlan(ops, a);
            var pivot := FindOrAddPlan(p.ops, TypeTranslate, false, PrecisionDouble, "pivot").op;
            multiset(SrtOutcome(ops, values, a).0) ==
              multiset(OpsOf(p.assignments)) + (if pivot.Some? then multiset{pivot.value} else multiset{})
  {
    var p := SrtPlan(ops, a);
    var pivot := FindOrAddPlan(p.ops, TypeTranslate, false, PrecisionDouble, "pivot").op;
    var setOps := OpsOf(p.assignments) + (if pivot.Some? then [pivot.value] else []);
    MergeOrderPermutation(p.ops, setOps);
  }

  // ---------------------------------------------------------------------------
  // The command object
  // ---------------------------------------------------------------------------

  /** The stack and values after set_transform: the first matrix op, when
      there is one, becomes the whole order and receives the matrix; otherwise
      the translate / rotate / scale ops are written and merged. */
  predicate SetTransformDefined(ops: seq<XformOp>, order: Vec3i) {
    if FirstIndexWhere(ops, IsTransformOp).Some? then Indexable(order) else SrtDefined(ops, order)
  }

  function SetTransformOutcome(ops: seq<XformOp>, values: map<XformOp, OpValue>, a: SrtArgs): (seq<XformOp>, map<XformOp, OpValue>)
    requires SetTransformDefined(ops, a.order)
  {
    match FirstIndexWhere(ops, IsTransformOp)
    case Some(i) => ([ops[i]], values[ops[i] := Matrix(a.translation, a.euler, a.order, a.scale)])
    case None => SrtOutcome(ops, values, a)
  }

  /** With a matrix op on the stack set_transform keeps only the first one. */
  lemma MatrixPathKeepsOnlyMatrix(ops: seq<XformOp>, values: map<XformOp, OpValue>, a: SrtArgs)
    requires SetTransformDefined(ops, a.order)
    requires exists i :: 0 <= i < |ops| && IsTransformOp(ops[i])
    ensures var (order, vals) := SetTransformOutcome(ops, values, a);
            |order| == 1 && order[0].opType == TypeTransform && order[0] in ops &&
            vals[order[0]] == Matrix(a.translation, a.euler, a.order, a.scale)
  {
  }

  /** TransformPrimSRT: the prim's op stack and the transform to write to it. */
  class TransformPrimSRT {
    const xform: Xformable
    const translation: Vec3
    const rotationEuler: Vec3
    const rotationOrder: Vec3i
    const scale: Vec3

    constructor (xform: Xformable, translation: Vec3, rotationEuler: Vec3, rotationOrder: Vec3i, scale: Vec3)
      ensures this.xform == xform && this.translation == translation && this.rotationEuler == rotationEuler
      ensures this.rotationOrder == rotationOrder && this.scale == scale
    {
      this.xform := xform;
      this.translation := translation;
      this.rotationEuler := rotationEuler;
      this.rotationOrder := rotationOrder;
      this.scale := scale;
    }

    /** The Python constructor, which raises when the prim path names no prim. */
    static method Create(prim: Xformable?, translation: Vec3, rotationEuler: Vec3, rotationOrder: Vec3i, scale: Vec3)
      returns (r: Option<TransformPrimSRT>)
      ensures r.None? <==> prim == null
      ensures r.Some? ==> fresh(r.value) && r.value.xform == prim &&
                          r.value.Args() == SrtArgs(translation, rotationEuler, rotationOrder, scale)
    {
      if prim == null {
        return None;
      }
      var c := new TransformPrimSRT(prim, translation, rotationEuler, rotationOrder, scale);
      return Some(c);
    }

    function Args(): SrtArgs {
      SrtArgs(translation, rotationEuler, rotationOrder, scale)
    }

    /** _find_or_add. */
    method FindOrAdd(t: OpType, create: bool, precision: Precision, suffix: string) returns (r: Option<XformOp>)
      modifies xform
      ensures Found(r, xform.ops) == FindOrAddPlan(old(xform.ops), t, create, precision, suffix)
      ensures xform.values == old(xform.values)
    {
      var ops := xform.ops;
      ghost var p := (op: XformOp) => Matches(t, suffix, op);
      var i := 0;
      while i < |ops|
        invariant 0 <= i <= |ops|
        invariant forall j :: 0 <= j < i ==> !Matches(t, suffix, ops[j])
      {
        if ops[i].opType == t && NameMatches(ops[i], suffix) {
          assert p(ops[i]);
          assert FirstIndexWhere(ops, p) == Some(i);
          return Some(ops[i]);
        }
        i := i + 1;
      }
      assert FirstIndexWhere(ops, p) == None;
      if !create {
        return None;
      }
      var op := xform.AddXformOp(t, precision, suffix);
      return Some(op);
    }

    /** _get_first_rotate_type. */
    method FirstRotateType() returns (t: OpType, precision: Precision)
      ensures (t, precision) == FirstRotateTypeSpec(xform.ops, rotationOrder)
    {
      var ops := xform.ops;
      var i := 0;
      while i < |ops|
        invariant 0 <= i <= |ops|
        invariant forall j :: 0 <= j < i ==> !IsRotateOp(ops[j])
      {
        RotateRangeIsRotateType(ops[i].opType);
        if Ordinal(TypeRotateX) <= Ordinal(ops[i].opType) <= Ordinal(TypeOrient) {
          assert FirstIndexWhere(ops, IsRotateOp) == Some(i);
          return ops[i].opType, ops[i].precision;
        }
        i := i + 1;
      }
      assert FirstIndexWhere(ops, IsRotateOp) == None;
      t := RotationOrderType(rotationOrder, TypeInvalid);
      if t == TypeInvalid {
        t := TypeOrient;
      }
      precision := PrecisionDouble;
    }

    /** The single-axis branch: one rotate op per rotation-order position,
        visiting positions 2, 1, 0. */
    method AddSingleAxisOps(precision: Precision) returns (rot: seq<OpAssignment>)
      requires Indexable(rotationOrder)
      modifies xform
      ensures Plan(rot, xform.ops) == SingleAxisPlan(old(xform.ops), Args(), precision, AxisCount)
      ensures xform.values == old(xform.values)
    {
      rot := [];
      ghost var ops0 := xform.ops;
      ghost var values0 := xform.values;
      for k := 0 to AxisCount
        invariant xform.values == values0
        invariant Plan(rot, xform.ops) == SingleAxisPlan(ops0, Args(), precision, k)
      {
        rot := AddAxisOp(2 - k, precision, ops0, rot);
      }
    }

    /** One round of the single-axis loop: the op for rotation-order
        position `i`, found or added, with its angle. */
    method AddAxisOp(i: int, precision: Precision, ghost ops0: seq<XformOp>, rot0: seq<OpAssignment>)
      returns (rot: seq<OpAssignment>)
      requires Indexable(rotationOrder) && 0 <= i <= 2
      requires Plan(rot0, xform.ops) == SingleAxisPlan(ops0, Args(), precision, 2 - i)
      modifies xform
      ensures Plan(rot, xform.ops) == SingleAxisPlan(ops0, Args(), precision, 3 - i)
      ensures xform.values == old(xform.values)
    {
      ghost var n: nat := 2 - i;
      ghost var prev := SingleAxisPlan(ops0, Args(), precision, n);
      SingleAxisPlanNext(ops0, Args(), precision, n);
      var axis := PyAxis(rotationOrder.At(i));
      var op := FindOrAdd(AxisType(axis), true, precision, "");
      rot := rot0 + [OpAssignment(op.value, Angle(Component(rotationEuler, axis)))];
    }

    /** The rotation part of _get_srt_xform_op_values for first rotate type `rt`. */
    method AddRotateOps(rt: OpType, precision: Precision) returns (rot: seq<OpAssignment>)
      requires IsThreeAxisRotate(rt) || Indexable(rotationOrder)
      modifies xform
      ensures Plan(rot, xform.ops) == RotatePlan(old(xform.ops), rt, precision, Args())
      ensures xform.values == old(xform.values)
    {
      rot := [];
      if IsSingleAxisRotate(rt) {
        RotatePlanCases(xform.ops, rt, precision, Args());
        rot := AddSingleAxisOps(precision);
      } else if IsThreeAxisRotate(rt) || rt == TypeOrient {
        rot := AddOneRotateOp(rt, precision);
      } else {
        RotatePlanCases(xform.ops, rt, precision, Args());
      }
    }

    /** The three-axis and Orient branches: one op, found or added. */
    method AddOneRotateOp(rt: OpType, precision: Precision) returns (rot: seq<OpAssignment>)
      requires IsThreeAxisRotate(rt) || rt == TypeOrient
      requires IsThreeAxisRotate(rt) || Indexable(rotationOrder)
      modifies xform
      ensures Plan(rot, xform.ops) == RotatePlan(old(xform.ops), rt, precision, Args())
      ensures xform.values == old(xform.values)
    {
      RotatePlanOneOp(xform.ops, rt, precision, Args());
      var op := FindOrAdd(rt, true, precision, "");
      if rt == TypeOrient {
        rot := [OpAssignment(op.value, Orientation(rotationEuler, rotationOrder))];
      } else {
        rot := [OpAssignment(op.value, Vector(rotationEuler))];
      }
    }

    /** _get_srt_xform_op_values. */
    method GetSrtXformOpValues() returns (assigns: seq<OpAssignment>)
      requires SrtDefined(xform.ops, rotationOrder)
      modifies xform
      ensures Plan(assigns, xform.ops) == SrtPlan(old(xform.ops), Args())
      ensures xform.values == old(xform.values)
    {
      var tr := FindOrAdd(TypeTranslate, true, PrecisionDouble, "");
      FirstRotateTypeAfterTranslate(old(xform.ops), rotationOrder, PrecisionDouble);
      var rt, precision := FirstRotateType();
      var rot := AddRotateOps(rt, precision);
      var sc := FindOrAdd(TypeScale, true, PrecisionDouble, "");
      assigns := [OpAssignment(tr.value, Vector(translation))] + rot + [OpAssignment(sc.value, Vector(scale))];
    }

    /** The value loop of _set_transform_as_srt: sets each op of the list
        and collects the ops in list order. */
    method WriteValues(assigns: seq<OpAssignment>) returns (setOps: seq<XformOp>)
      modifies xform
      ensures setOps == OpsOf(assigns)
      ensures xform.values == WriteAll(old(xform.values), assigns) && xform.ops == old(xform.ops)
    {
      setOps := [];
      var i := 0;
      while i < |assigns|
        invariant 0 <= i <= |assigns|
        invariant xform.ops == old(xform.ops)
        invariant WriteAll(xform.values, assigns[i..]) == WriteAll(old(xform.values), assigns)
        invariant setOps == OpsOf(assigns[..i])
      {
        assert assigns[i..][1..] == assigns[i + 1..];
        xform.SetValue(assigns[i].op, assigns[i].value);
        assert assigns[..i + 1] == assigns[..i] + [assigns[i]];
        setOps := setOps + [assigns[i].op];
        i := i + 1;
      }
      assert assigns[..i] == assigns;
    }

    /** _set_transform_as_srt. */
    method SetTransformAsSrt()
      requires SrtDefined(xform.ops, rotationOrder)
      modifies xform
      ensures (xform.ops, xform.values) == SrtOutcome(old(xform.ops), old(xform.values), Args())
    {
      ghost var ops0, values0 := xform.ops, xform.values;
      SrtOutcomeParts(ops0, values0, Args());
      ghost var plan := SrtPlan(ops0, Args());
      ghost var pv := FindOrAddPlan(plan.ops, TypeTranslate, false, PrecisionDouble, "pivot").op;
      var assigns := GetSrtXformOpValues();
      ghost var ops1 := xform.ops;
      assert plan == Plan(assigns, ops1);
      var setOps := WriteValues(assigns);
      var pivot := FindOrAdd(TypeTranslate, false, PrecisionDouble, "pivot");
      assert pivot == pv;
      // Pivot is the last one.
      if pivot.Some? {
        setOps := setOps + [pivot.value];
      }
      assert setOps == OpsOf(plan.assignments) + (if pv.Some? then [pv.value] else []);
      var order := MergeXformOrder(xform.ops, setOps);
      xform.SetXformOpOrder(order);
    }

    /** _set_transform_as_matrix: the matrix op becomes the whole order. */
    method SetTransformAsMatrix(op: XformOp)
      requires Indexable(rotationOrder)
      modifies xform
      ensures xform.ops == [op]
      ensures xform.values == old(xform.values)[op := Matrix(translation, rotationEuler, rotationOrder, scale)]
    {
      xform.SetXformOpOrder([op]);
      xform.SetValue(op, Matrix(translation, rotationEuler, rotationOrder, scale));
    }

    /** set_transform, which `do` calls at the default time. */
    method SetTransform()
      requires SetTransformDefined(xform.ops, rotationOrder)
      modifies xform
      ensures (xform.ops, xform.values) == SetTransformOutcome(old(xform.ops), old(xform.values), Args())
    {
      var ops := xform.ops;
      var i := 0;
      while i < |ops|
        invariant 0 <= i <= |ops|
        invariant xform.ops == ops && xform.values == old(xform.values)
        invariant forall j :: 0 <= j < i ==> !IsTransformOp(ops[j])
      {
        if ops[i].opType == TypeTransform {
          assert FirstIndexWhere(ops, IsTransformOp) == Some(i);
          SetTransformAsMatrix(ops[i]);
          return;
        }
        i := i + 1;
      }
      assert FirstIndexWhere(ops, IsTransformOp) == None;
      SetTransformAsSrt();
    }
  }

  // ---------------------------------------------------------------------------
  // Reading the transform back
  // ---------------------------------------------------------------------------

  datatype Srt = Srt(translate: Vec3, rotXyz: Vec3, scale: Vec3)

  /** The running sums of get_srt_xform_from_prim; `scale` is None until a
      scale or matrix op contributes. */
  datatype SrtSums = SrtSums(translate: Vec3, rotXyz: Vec3, scale: Option<Vec3>)

  /** Gf.Vec3d(xop.Get()): only a vector value converts. */
  function AsVector(v: Option<OpValue>): Option<Vec3> {
    if v.Some? && v.value.Vector? then Some(v.value.v) else None
  }

  function AddScale(s: Option<Vec3>, d: Vec3): Option<Vec3> {
    if s.None? then Some(Add(Zero3, d)) else Some(Add(s.value, d))
  }

  /** The sums after one op; None when reading the op's value raises. The
      matrix decomposition and the orientation-to-Euler conversion are those
      of the USD math library and come in as functions. */
  function Step(s: SrtSums, op: XformOp, values: map<XformOp, OpValue>,
                decomposeMatrix: OpValue -> Srt, decomposeOrient: OpValue -> Vec3): Option<SrtSums>
  {
    var v := if op in values then Some(values[op]) else None;
    if op.opType == TypeTransform then
      if v.None? then None
      else
        var m := decomposeMatrix(v.value);
        Some(SrtSums(Add(s.translate, m.translate), Add(s.rotXyz, m.rotXyz), AddScale(s.scale, m.scale)))
    else if op.opType == TypeOrient then
      if v.None? then None else Some(s.(rotXyz := Add(s.rotXyz, decomposeOrient(v.value))))
    else if op.opType == TypeTranslate then
      match AsVector(v)
      case None => None
      case Some(d) => Some(s.(translate := Add(s.translate, d)))
    else if op.opType == TypeRotateXYZ then
      match AsVector(v)
      case None => None
      case Some(d) => Some(s.(rotXyz := Add(s.rotXyz, d)))
    else if op.opType == TypeScale then
      match AsVector(v)
      case None => None
      case Some(d) => Some(s.(scale := AddScale(s.scale, d)))
    else Some(s)
  }

  /** The sums after the first ops of the stack, or None if one of them raised. */
  function Sums(ops: seq<XformOp>, values: map<XformOp, OpValue>, start: SrtSums,
                decomposeMatrix: OpValue -> Srt, decomposeOrient: OpValue -> Vec3): Option<SrtSums>
    decreases |ops|
  {
    if ops == [] then Some(start)
    else
      match Sums(ops[..|ops| - 1], values, start, decomposeMatrix, decomposeOrient)
      case None => None
      case Some(s) => Step(s, ops[|ops| - 1], values, decomposeMatrix, decomposeOrient)
  }

  const DefaultSrt: Srt := Srt(Zero3, Zero3, One3)

  function FromSums(s: SrtSums, defaultScale: Vec3): Srt {
    Srt(s.translate, s.rotXyz, if s.scale.None? then defaultScale else s.scale.value)
  }

  /** What one op adds to the translation. */
  function TranslateOf(op: XformOp, values: map<XformOp, OpValue>, decomposeMatrix: OpValue -> Srt): Vec3 {
    if op !in values then Zero3
    else if op.opType == TypeTransform then decomposeMatrix(values[op]).translate
    else if op.opType == TypeTranslate && values[op].Vector? then values[op].v
    else Zero3
  }

  function TranslateSum(ops: seq<XformOp>, values: map<XformOp, OpValue>, decomposeMatrix: OpValue -> Srt): Vec3
    decreases |ops|
  {
    if ops == [] then Zero3
    else Add(TranslateSum(ops[..|ops| - 1], values, decomposeMatrix), TranslateOf(ops[|ops| - 1], values, decomposeMatrix))
  }

  lemma AddAssociative(a: Vec3, b: Vec3, c: Vec3)
    ensures Add(Add(a, b), c) == Add(a, Add(b, c))
  {
  }

  lemma StepTranslate(s: SrtSums, op: XformOp, values: map<XformOp, OpValue>,
                      decomposeMatrix: OpValue -> Srt, decomposeOrient: OpValue -> Vec3)
    ensures var r := Step(s, op, values, decomposeMatrix, decomposeOrient);
            r.Some? ==> r.value.translate == Add(s.translate, TranslateOf(op, values, decomposeMatrix))
  {
  }

  /** Translate and matrix ops add up: the translation read back is the
      default plus each op's contribution. */
  lemma {:induction false} SumsTranslateAdditive(ops: seq<XformOp>, values: map<XformOp, OpValue>, start: SrtSums,
                                                 decomposeMatrix: OpValue -> Srt, decomposeOrient: OpValue -> Vec3)
    ensures var r := Sums(ops, values, start, decomposeMatrix, decomposeOrient);
            r.Some? ==> r.value.translate == Add(start.translate, TranslateSum(ops, values, decomposeMatrix))
    decreases |ops|
  {
    if ops != [] {
      var init := ops[..|ops| - 1];
      var last := ops[|ops| - 1];
      SumsTranslateAdditive(init, values, start, decomposeMatrix, decomposeOrient);
      var prev := Sums(init, values, start, decomposeMatrix, decomposeOrient);
      if prev.Some? {
        StepTranslate(prev.value, last, values, decomposeMatrix, decomposeOrient);
        AddAssociative(start.translate, TranslateSum(init, values, decomposeMatrix), TranslateOf(last, values, decomposeMatrix));
      }
    }
  }

  /** Once reading an op raises, the sums of every longer prefix are None too. */
  lemma {:induction false} SumsNoneStays(ops: seq<XformOp>, i: nat, values: map<XformOp, OpValue>, start: SrtSums,
                                         decomposeMatrix: OpValue -> Srt, decomposeOrient: OpValue -> Vec3)
    requires i <= |ops| && Sums(ops[..i], values, start, decomposeMatrix, decomposeOrient).None?
    ensures Sums(ops, values, start, decomposeMatrix, decomposeOrient).None?
    decreases |ops| - i
  {
    if i < |ops| {
      assert ops[..i + 1][..i] == ops[..i];
      SumsNoneStays(ops, i + 1, values, start, decomposeMatrix, decomposeOrient);
    } else {
      assert ops[..i] == ops;
    }
  }

  /** Without scale and matrix ops the scale is not touched. */
  lemma {:induction false} SumsKeepScale(ops: seq<XformOp>, values: map<XformOp, OpValue>, start: SrtSums,
                                         decomposeMatrix: OpValue -> Srt, decomposeOrient: OpValue -> Vec3)
    requires forall k :: 0 <= k < |ops| ==> ops[k].opType != TypeScale && ops[k].opType != TypeTransform
    ensures var r := Sums(ops, values, start, decomposeMatrix, decomposeOrient);
            r.Some? ==> r.value.scale == start.scale
    decreases |ops|
  {
    if ops != [] {
      SumsKeepScale(ops[..|ops| - 1], values, start, decomposeMatrix, decomposeOrient);
    }
  }

  /** What get_srt_xform_from_prim returns for a stack, or None if it raises. */
  function SrtFromPrim(ops: seq<XformOp>, values: map<XformOp, OpValue>, defaults: Option<Srt>,
                       decomposeMatrix: OpValue -> Srt, decomposeOrient: OpValue -> Vec3): Option<Srt>
  {
    var d := if defaults.None? then DefaultSrt else defaults.value;
    var s := Sums(ops, values, SrtSums(d.translate, d.rotXyz, None), decomposeMatrix, decomposeOrient);
    if s.None? then None else Some(FromSums(s.value, d.scale))
  }

  /** get_srt_xform_from_prim: accumulates over the ordered ops; None stands
      for the exception raised when an op it reads has no vector value. */
  method GetSrtXformFromPrim(xform: Xformable, defaults: Option<Srt>,
                             decomposeMatrix: OpValue -> Srt, decomposeOrient: OpValue -> Vec3)
    returns (r: Option<Srt>)
    ensures r == SrtFromPrim(xform.ops, xform.values, defaults, decomposeMatrix, decomposeOrient)
  {
    var d := if defaults.None? then DefaultSrt else defaults.value;
    var translate := d.translate;
    var rotXyz := d.rotXyz;
    var scale: Option<Vec3> := None;
    var ops := xform.ops;
    var values := xform.values;
    var i := 0;
    while i < |ops|
      invariant 0 <= i <= |ops|
      invariant Sums(ops[..i], values, SrtSums(d.translate, d.rotXyz, None), decomposeMatrix, decomposeOrient)
                == Some(SrtSums(translate, rotXyz, scale))
    {
      assert ops[..i + 1][..i] == ops[..i];
      var next := AccumulateOp(translate, rotXyz, scale, ops[i], values, decomposeMatrix, decomposeOrient);
      if next.None? {
        SumsNoneStays(ops, i + 1, values, SrtSums(d.translate, d.rotXyz, None), decomposeMatrix, decomposeOrient);
        return None;
      }
      translate, rotXyz, scale := next.value.translate, next.value.rotXyz, next.value.scale;
      i := i + 1;
    }
    assert ops[..i] == ops;
    var finalScale := if scale.None? then d.scale else scale.value;
    return Some(Srt(translate, rotXyz, finalScale));
  }

  /** The body of get_srt_xform_from_prim's loop for one op: the sums with
      its value added, or None where reading the value raises. */
  method AccumulateOp(translate0: Vec3, rotXyz0: Vec3, scale0: Option<Vec3>, op: XformOp, values: map<XformOp, OpValue>,
                      decomposeMatrix: OpValue -> Srt, decomposeOrient: OpValue -> Vec3) returns (r: Option<SrtSums>)
    ensures r == Step(SrtSums(translate0, rotXyz0, scale0), op, values, decomposeMatrix, decomposeOrient)
  {
    var translate, rotXyz, scale := translate0, rotXyz0, scale0;
    var v := if op in values then Some(values[op]) else None;
    if op.opType == TypeTransform {
      if v.None? {
        return None;
      }
      var m := decomposeMatrix(v.value);
      translate := Add(translate, m.translate);
      rotXyz := Add(rotXyz, m.rotXyz);
      scale := if scale.None? then Some(Add(Zero3, m.scale)) else Some(Add(scale.value, m.scale));
    } else if op.opType == TypeOrient {
      if v.None? {
        return None;
      }
      rotXyz := Add(rotXyz, decomposeOrient(v.value));
    } else if op.opType == TypeTranslate {
      if !(v.Some? && v.value.Vector?) {
        return None;
      }
      translate := Add(translate, v.value.v);
    } else if op.opType == TypeRotateXYZ {
      if !(v.Some? && v.value.Vector?) {
        return None;
      }
      rotXyz := Add(rotXyz, v.value.v);
    } else if op.opType == TypeScale {
      if !(v.Some? && v.value.Vector?) {
        return None;
      }
      scale := if scale.None? then Some(Add(Zero3, v.value.v)) else Some(Add(scale.value, v.value.v));
    }
    return Some(SrtSums(translate, rotXyz, scale));
  }

  /** With no scale or matrix op on the stack, the default scale is returned. */
  lemma DefaultScaleWithoutScaleOps(ops: seq<XformOp>, values: map<XformOp, OpValue>, d: Srt,
                                    decomposeMatrix: OpValue -> Srt, decomposeOrient: OpValue -> Vec3)
    requires forall k :: 0 <= k < |ops| ==> ops[k].opType != TypeScale && ops[k].opType != TypeTransform
    ensures var s := Sums(ops, values, SrtSums(d.translate, d.rotXyz, None), decomposeMatrix, decomposeOrient);
            s.Some? ==> FromSums(s.value, d.scale).scale == d.scale
  {
    SumsKeepScale(ops, values, SrtSums(d.translate, d.rotXyz, None), decomposeMatrix, decomposeOrient);
  }
}
