/**
 * The part of USD's transform-op API that the samples drive: the op types and
 * their tokens, the op record, and a prim's ordered op stack with the values
 * written to its ops. Every operation here stands for a USD library call
 * (AddXformOp, SetXformOpOrder, XformOp.Set, XformOp.Get); the samples only
 * call them.
 */
module UsdXform {
  import opened Common

  /** UsdGeomXformOp::Type, in the library's enumeration order. */
  datatype OpType =
    | TypeInvalid
    | TypeTranslate
    | TypeScale
    | TypeRotateX | TypeRotateY | TypeRotateZ
    | TypeRotateXYZ | TypeRotateXZY | TypeRotateYXZ | TypeRotateYZX | TypeRotateZXY | TypeRotateZYX
    | TypeOrient
    | TypeTransform

  /** Position of a type in the enumeration; the samples compare types with `<=`. */
  function Ordinal(t: OpType): nat {
    match t
    case TypeInvalid => 0
    case TypeTranslate => 1
    case TypeScale => 2
    case TypeRotateX => 3
    case TypeRotateY => 4
    case TypeRotateZ => 5
    case TypeRotateXYZ => 6
    case TypeRotateXZY => 7
    case TypeRotateYXZ => 8
    case TypeRotateYZX => 9
    case TypeRotateZXY => 10
    case TypeRotateZYX => 11
    case TypeOrient => 12
    case TypeTransform => 13
  }

  /** The op-type token USD puts in an op's attribute name. */
  function Token(t: OpType): string {
    match t
    case TypeInvalid => ""
    case TypeTranslate => "translate"
    case TypeScale => "scale"
    case TypeRotateX => "rotateX"
    case TypeRotateY => "rotateY"
    case TypeRotateZ => "rotateZ"
    case TypeRotateXYZ => "rotateXYZ"
    case TypeRotateXZY => "rotateXZY"
    case TypeRotateYXZ => "rotateYXZ"
    case TypeRotateYZX => "rotateYZX"
    case TypeRotateZXY => "rotateZXY"
    case TypeRotateZYX => "rotateZYX"
    case TypeOrient => "orient"
    case TypeTransform => "transform"
  }

  datatype Precision = PrecisionDouble | PrecisionFloat | PrecisionHalf

  /** One transform op of a prim: its type, full attribute name
      (e.g. "xformOp:translate:pivot"), precision and authored time samples. */
  datatype XformOp = XformOp(opType: OpType, name: string, precision: Precision, timeSamples: seq<real>)

  /** The attribute name AddXformOp gives a new op: "xformOp:<token>[:<suffix>]". */
  function OpName(t: OpType, suffix: string): string {
    var head := "xformOp:" + Token(t);
    if suffix == "" then head else head + ":" + suffix
  }

  /** Without a suffix the name holds a single ':'; with one it ends in it. */
  lemma OpNameShape(t: OpType, suffix: string)
    ensures suffix == "" ==> CountChar(OpName(t, suffix), ':') == 1
    ensures suffix != "" ==> EndsWith(OpName(t, suffix), suffix)
  {
    var head := "xformOp:" + Token(t);
    HeadHasOneColon(t);
    if suffix != "" {
      assert (head + ":" + suffix)[|head + ":" + suffix| - |suffix|..] == suffix;
    }
  }

  lemma TokenHasNoColon(t: OpType)
    ensures CountChar(Token(t), ':') == 0
  {
    var s := Token(t);
    assert forall i :: 0 <= i < |s| ==> s[i] != ':';
  }

  lemma HeadHasOneColon(t: OpType)
    ensures CountChar("xformOp:" + Token(t), ':') == 1
  {
    PrefixHasOneColon();
    CountCharConcat("xformOp:", Token(t), ':');
    TokenHasNoColon(t);
  }

  lemma PrefixHasOneColon()
    ensures CountChar("xformOp:", ':') == 1
  {
    var w := "xformOp";
    assert forall i :: 0 <= i < |w| ==> w[i] != ':';
    assert CountChar(":", ':') == 1;
    CountCharConcat(w, ":", ':');
    assert w + ":" == "xformOp:";
  }

  /** The op AddXformOp creates: no time samples yet. */
  function NewOp(t: OpType, precision: Precision, suffix: string): XformOp {
    XformOp(t, OpName(t, suffix), precision, [])
  }

  datatype Vec3 = Vec3(x: real, y: real, z: real)

  function Add(a: Vec3, b: Vec3): Vec3 {
    Vec3(a.x + b.x, a.y + b.y, a.z + b.z)
  }

  const Zero3: Vec3 := Vec3(0.0, 0.0, 0.0)
  const One3: Vec3 := Vec3(1.0, 1.0, 1.0)

  /** Gf.Vec3i, used for rotation orders: component i names the i-th axis. */
  datatype Vec3i = Vec3i(x: int, y: int, z: int) {
    function At(i: nat): int
      requires i < 3
    {
      if i == 0 then x else if i == 1 then y else z
    }
  }

  /** Component `i` of a double vector, as `v[i]` reads it. */
  function Component(v: Vec3, i: nat): real
    requires i < 3
  {
    if i == 0 then v.x else if i == 1 then v.y else v.z
  }

  /** The value written to an op. Rotations and matrices stay symbolic: the
      quaternion and the 4x4 matrix are floating-point constructions of the
      USD math library, kept here as the arguments they are built from. */
  datatype OpValue =
    | Vector(v: Vec3)
    | Angle(degrees: real)
    | Orientation(euler: Vec3, order: Vec3i)
    | Matrix(translation: Vec3, euler: Vec3, order: Vec3i, scale: Vec3)

  /** A transformable prim: its ordered op stack (xformOpOrder) and the values
      authored on its op attributes at the default time. */
  class Xformable {
    var ops: seq<XformOp>
    var values: map<XformOp, OpValue>

    constructor (ops0: seq<XformOp>, values0: map<XformOp, OpValue>)
      ensures ops == ops0 && values == values0
    {
      ops := ops0;
      values := values0;
    }

    /** UsdGeomXformable::AddXformOp: creates the op and appends it to the order. */
    method AddXformOp(t: OpType, precision: Precision, suffix: string) returns (op: XformOp)
      modifies this
      ensures op == NewOp(t, precision, suffix)
      ensures ops == old(ops) + [op] && values == old(values)
    {
      op := NewOp(t, precision, suffix);
      ops := ops + [op];
    }

    /** UsdGeomXformable::SetXformOpOrder: replaces the order, keeps all values. */
    method SetXformOpOrder(order: seq<XformOp>)
      modifies this
      ensures ops == order && values == old(values)
    {
      ops := order;
    }

    /** UsdGeomXformOp::Set at the default time. */
    method SetValue(op: XformOp, v: OpValue)
      modifies this
      ensures values == old(values)[op := v] && ops == old(ops)
    {
      values := values[op := v];
    }
  }
}
