/**
 * The Python hello-world sample (helloWorld.py): the URL, checkpoint and
 * physics decisions, the derivation of live mode from the parsed flags, the
 * box it creates through TransformPrimSRT, the search for a mesh in an
 * existing stage, the main flow, and the live-edit key loop that reads the
 * box's transform back, moves it on a circle and writes it again.
 *
 * argparse is not modelled: its result comes in as a `PyArgs` record.
 * omni.client.break_url and the other library calls whose results the
 * sample only tests are parameters, as in the C++ model.
 */
module HelloWorldPy {
  import opened Common
  import opened UsdXform
  import opened XformUtils
  import opened BoxGeometry
  import C = HelloWorldCpp

  // ---------------------------------------------------------------------------
  // URLs, checkpoints, physics
  // ---------------------------------------------------------------------------

  /** isValidOmniUrl: only the scheme is tested. */
  predicate IsValidOmniUrl(u: C.OmniUrl) {
    u.scheme == Some("omniverse") || u.scheme == Some("omni")
  }

  /** The Python test is the C++ test without its host and path checks. */
  lemma ValidityAgainstCpp(u: C.OmniUrl)
    ensures C.IsValidOmniUrl(u) <==> IsValidOmniUrl(u) && u.host.Some? && u.path.Some?
  {
  }

  /** So the Python sample accepts URLs the C++ sample warns about. */
  lemma SchemeOnlyUrlAcceptedOnlyByPython()
    ensures IsValidOmniUrl(C.OmniUrl(Some("omni"), None, None))
    ensures !C.IsValidOmniUrl(C.OmniUrl(Some("omni"), None, None))
  {
  }

  /** checkpointFile: nothing in live mode; otherwise a checkpoint when the
      result, the server info and its checkpoints_enabled are all truthy.
      `resultTruthy` is the truth value of the returned result. */
  function CheckpointFile(liveDefault: bool, resultTruthy: bool, info: Option<C.ServerInfo>): (checkpoint: bool)
    ensures checkpoint <==> !liveDefault && resultTruthy && info.Some? && info.value.checkpointsEnabled
  {
    if liveDefault then false
    else resultTruthy && info.Some? && info.value.checkpointsEnabled
  }

  /** When the result is truthy exactly when it is ok, the two samples make
      the same checkpoint decision. */
  lemma CheckpointAgreesWithCpp(liveDefault: bool, reply: C.ServerInfoReply)
    ensures CheckpointFile(liveDefault, reply.ok, reply.info) == C.CheckpointFile(liveDefault, reply)
  {
  }

  /** enablePhysics, following the Python branches. */
  function EnablePhysics(isMesh: bool, dynamic: bool): (p: C.PhysicsApis)
    ensures p.collision && (p.rigidBody <==> dynamic)
  {
    var rigidBody := if dynamic then true else false;
    var approximation :=
      if isMesh then
        if dynamic then Some(C.ConvexHull) else Some(C.NoApproximation)
      else None;
    C.PhysicsApis(rigidBody, true, approximation)
  }

  /** Both samples apply the same physics APIs to every prim. */
  lemma PhysicsAgreesWithCpp(isMesh: bool, dynamic: bool)
    ensures EnablePhysics(isMesh, dynamic) == C.EnablePhysics(isMesh, dynamic)
  {
  }

  // ---------------------------------------------------------------------------
  // Flags
  // ---------------------------------------------------------------------------

  /** What argparse returns: --live, --path (with its default), --verbose and
      --existing, which is None when the flag is absent. */
  datatype PyArgs = PyArgs(live: bool, path: string, verbose: bool, existing: Option<string>)

  /** Python truth of an optional string: present and non-empty. */
  predicate Truthy(s: Option<string>) { s.Some? && s.value != "" }

  /** `live_edit = args.live or bool(existing_stage)`. */
  function LiveEditMode(a: PyArgs): (live: bool)
    ensures live <==> a.live || (a.existing.Some? && |a.existing.value| > 0)
  {
    a.live || Truthy(a.existing)
  }

  /** An empty --existing does not switch live mode on in Python, while the
      C++ parser switches it on for any -e with a value. */
  lemma EmptyExistingDiffersFromCpp(breakUrl: string -> C.OmniUrl)
    ensures !LiveEditMode(PyArgs(false, C.DefaultDestination, false, Some("")))
    ensures var r := C.ParseTokens(["-e", ""], C.InitialOptions, breakUrl);
            r.Proceed? && r.opts.live
  {
    var args := ["-e", ""];
    assert args[2..] == [];
  }

  /** A warning the main block logs before going on. Unlike the C++ parser,
      each warning names the URL that was tested. */
  datatype PyWarning = BadDestination(url: string) | BadExisting(url: string)

  function Warnings(a: PyArgs, breakUrl: string -> C.OmniUrl): (w: seq<PyWarning>)
    ensures BadDestination(a.path) in w <==> a.path != "" && !IsValidOmniUrl(breakUrl(a.path))
    ensures (exists u :: BadExisting(u) in w) <==> Truthy(a.existing) && !IsValidOmniUrl(breakUrl(a.existing.value))
    ensures forall k :: 0 <= k < |w| ==> w[k] == BadDestination(a.path) || (Truthy(a.existing) && w[k] == BadExisting(a.existing.value))
  {
    var d := if a.path != "" && !IsValidOmniUrl(breakUrl(a.path)) then [BadDestination(a.path)] else [];
    var e := if Truthy(a.existing) && !IsValidOmniUrl(breakUrl(a.existing.value)) then [BadExisting(a.existing.value)] else [];
    assert e != [] ==> (d + e)[|d|] == e[0];
    d + e
  }

  // ---------------------------------------------------------------------------
  // createBox
  // ---------------------------------------------------------------------------

  /** The mesh createBox authors: the module-level tables as they are. */
  const PyBoxMesh: MeshData := MeshData(BoxPoints, BoxNormals, BoxVertexIndices, BoxVertexCounts, BoxUVs)

  /** The TransformPrimSRT of createBox: translation (0, 100, 0), rotation
      (20, 0, 20), and the default rotation order (0, 1, 2) and scale 1. */
  const PyBoxArgs: SrtArgs := SrtArgs(Vec3(0.0, 100.0, 0.0), Vec3(20.0, 0.0, 20.0), Vec3i(0, 1, 2), One3)

  /** The three ops set_transform adds to a prim with no ops. */
  const BoxTranslate: XformOp := NewOp(TypeTranslate, PrecisionDouble, "")
  const BoxRotate: XformOp := NewOp(TypeRotateXYZ, PrecisionDouble, "")
  const BoxScale: XformOp := NewOp(TypeScale, PrecisionDouble, "")
  const BoxStack: seq<XformOp> := [BoxTranslate, BoxRotate, BoxScale]
  const PyBoxValues: map<XformOp, OpValue> :=
    map[BoxTranslate := Vector(Vec3(0.0, 100.0, 0.0)), BoxRotate := Vector(Vec3(20.0, 0.0, 20.0)), BoxScale := Vector(One3)]

  /** createBox: defines rootUrl/box_<n>, exits when that fails, otherwise
      authors the tables, runs the TransformPrimSRT command on the new prim
      and makes it a dynamic rigid body. */
  method CreateBox(rootUrl: string, boxNumber: int, defineOk: bool) returns (r: Option<C.BoxPrim>)
    ensures r.None? <==> !defineOk
    ensures r.Some? ==>
      r.value.path == BoxPrimPath(rootUrl, boxNumber) &&
      r.value.mesh == PyBoxMesh &&
      SetTransformDefined([], PyBoxArgs.order) &&
      (r.value.ops, r.value.values) == SetTransformOutcome([], map[], PyBoxArgs) &&
      r.value.ops == BoxStack && r.value.values == PyBoxValues &&
      r.value.physics == C.EnablePhysics(true, true)
  {
    var boxUrl := rootUrl + "/box_" + IntToDecimal(boxNumber);
    if !defineOk {
      return None;
    }
    var prim := new Xformable([], map[]);
    var action := TransformPrimSRT.Create(prim, Vec3(0.0, 100.0, 0.0), Vec3(20.0, 0.0, 20.0), Vec3i(0, 1, 2), One3);
    assert SetTransformDefined(prim.ops, action.value.rotationOrder);
    action.value.SetTransform();
    PyBoxTransform();
    var physics := EnablePhysics(true, true);
    PhysicsAgreesWithCpp(true, true);
    return Some(C.BoxPrim(boxUrl, PyBoxMesh, prim.ops, prim.values, physics));
  }

  /** Both samples author the same mesh: the Python tables are the C++ tables
      unshifted. */
  lemma BoxMeshAgreesWithCpp()
    ensures PyBoxMesh == ShiftedBox(Vec3i(0, 0, 0))
  {
    ShiftedBoxWellFormed(Vec3i(0, 0, 0));
  }

  /** Merging a stack with itself leaves it as it is. */
  lemma {:induction false} MergeOrderSame(s: seq<XformOp>)
    ensures MergeOrder(s, s) == s
    decreases |s|
  {
    if s != [] {
      assert s[0] in s;
      assert RemoveFirst(s, s[0]) == s[1..];
      MergeOrderSame(s[1..]);
    }
  }

  /** _find_or_add when no op of the stack matches: a new op, or nothing. */
  lemma FindOrAddNoMatch(ops: seq<XformOp>, t: OpType, create: bool, precision: Precision, suffix: string)
    requires forall i :: 0 <= i < |ops| ==> !Matches(t, suffix, ops[i])
    ensures FindOrAddPlan(ops, t, create, precision, suffix) ==
              if create then Found(Some(NewOp(t, precision, suffix)), ops + [NewOp(t, precision, suffix)])
              else Found(None, ops)
  {
    var p := (op: XformOp) => Matches(t, suffix, op);
    assert forall i :: 0 <= i < |ops| ==> !p(ops[i]);
    assert FirstIndexWhere(ops, p).None?;
  }

  /** _find_or_add when ops[i] is the first op of the requested type and matches. */
  lemma FindOrAddFindsAt(ops: seq<XformOp>, i: nat, t: OpType, create: bool, precision: Precision, suffix: string)
    requires i < |ops| && Matches(t, suffix, ops[i])
    requires forall j :: 0 <= j < i ==> ops[j].opType != t
    ensures FindOrAddPlan(ops, t, create, precision, suffix) == Found(Some(ops[i]), ops)
  {
    var p := (op: XformOp) => Matches(t, suffix, op);
    assert p(ops[i]);
    var k := FirstIndexWhere(ops, p);
    assert k.Some?;
    assert !(k.value < i);
    assert !(k.value > i);
  }

  /** An op added without a suffix is not a pivot. */
  lemma TranslateIsNoPivot()
    ensures !NameMatches(NewOp(TypeTranslate, PrecisionDouble, ""), "pivot")
  {
    var n := OpName(TypeTranslate, "");
    assert n == "xformOp:" + "translate";
    assert n[|n| - 1] == 'e';
  }

  lemma Concat3<T>(x: T, ys: seq<T>, y: T, z: T)
    requires ys == [y]
    ensures [x] + ys + [z] == [x, y, z]
  {
  }

  /** The translate lookup on a prim with no ops adds a new translate op. */
  lemma TranslateOnEmpty(ops: seq<XformOp>)
    requires ops == []
    ensures FindOrAddPlan(ops, TypeTranslate, true, PrecisionDouble, "") == Found(Some(BoxTranslate), ops + [BoxTranslate])
  {
    FindOrAddNoMatch(ops, TypeTranslate, true, PrecisionDouble, "");
  }

  /** With only a translate op on the stack, order (0, 1, 2) gives rotateXYZ,
      and the rotate lookup adds a new rotateXYZ op. */
  lemma RotateAfterTranslate(ops: seq<XformOp>, a: SrtArgs)
    requires |ops| == 1 && ops[0].opType == TypeTranslate && a.order == Vec3i(0, 1, 2)
    ensures FirstRotateTypeSpec(ops, a.order) == (TypeRotateXYZ, PrecisionDouble)
    ensures RotatePlan(ops, TypeRotateXYZ, PrecisionDouble, a) ==
              Plan([OpAssignment(BoxRotate, Vector(a.euler))], ops + [BoxRotate])
  {
    FirstRotateTypeOfTranslate(ops, a.order);
    RotateXyzAfterTranslate(ops, a);
  }

  lemma FirstRotateTypeOfTranslate(ops: seq<XformOp>, order: Vec3i)
    requires |ops| == 1 && ops[0].opType == TypeTranslate && order == Vec3i(0, 1, 2)
    ensures FirstRotateTypeSpec(ops, order) == (TypeRotateXYZ, PrecisionDouble)
  {
    assert FirstIndexWhere(ops, IsRotateOp).None?;
  }

  lemma RotateXyzAfterTranslate(ops: seq<XformOp>, a: SrtArgs)
    requires |ops| == 1 && ops[0].opType == TypeTranslate
    ensures RotatePlan(ops, TypeRotateXYZ, PrecisionDouble, a) ==
              Plan([OpAssignment(BoxRotate, Vector(a.euler))], ops + [BoxRotate])
  {
    FindOrAddNoMatch(ops, TypeRotateXYZ, true, PrecisionDouble, "");
  }

  /** After a translate and a rotateXYZ op the scale lookup adds a new scale op. */
  lemma ScaleAfterRotate(ops: seq<XformOp>)
    requires |ops| == 2 && ops[0].opType == TypeTranslate && ops[1].opType == TypeRotateXYZ
    ensures FindOrAddPlan(ops, TypeScale, true, PrecisionDouble, "") == Found(Some(BoxScale), ops + [BoxScale])
  {
    FindOrAddNoMatch(ops, TypeScale, true, PrecisionDouble, "");
  }

  /** _get_srt_xform_op_values from the three lookups it makes, when each adds an op. */
  lemma SrtPlanOfThreeLookups(ops: seq<XformOp>, a: SrtArgs, tOp: XformOp, rOp: XformOp, sOp: XformOp)
    requires SrtDefined(ops, a.order)
    requires FindOrAddPlan(ops, TypeTranslate, true, PrecisionDouble, "") == Found(Some(tOp), ops + [tOp])
    requires FirstRotateTypeSpec(ops + [tOp], a.order) == (TypeRotateXYZ, PrecisionDouble)
    requires RotatePlan(ops + [tOp], TypeRotateXYZ, PrecisionDouble, a) ==
               Plan([OpAssignment(rOp, Vector(a.euler))], ops + [tOp] + [rOp])
    requires FindOrAddPlan(ops + [tOp] + [rOp], TypeScale, true, PrecisionDouble, "") ==
               Found(Some(sOp), ops + [tOp] + [rOp] + [sOp])
    ensures SrtPlan(ops, a) ==
              Plan([OpAssignment(tOp, Vector(a.translation)), OpAssignment(rOp, Vector(a.euler)),
                    OpAssignment(sOp, Vector(a.scale))], ops + [tOp] + [rOp] + [sOp])
  {
    var tr := FindOrAddPlan(ops, TypeTranslate, true, PrecisionDouble, "");
    var rot := RotatePlan(tr.ops, TypeRotateXYZ, PrecisionDouble, a);
    Concat3(OpAssignment(tOp, Vector(a.translation)), rot.assignments, OpAssignment(rOp, Vector(a.euler)),
            OpAssignment(sOp, Vector(a.scale)));
  }

  /** _get_srt_xform_op_values on a prim with no ops and order (0, 1, 2):
      new translate, rotateXYZ and scale ops with the three vectors. */
  lemma SrtPlanOnEmpty(ops: seq<XformOp>, a: SrtArgs)
    requires ops == [] && a.order == Vec3i(0, 1, 2)
    ensures SrtDefined(ops, a.order)
    ensures SrtPlan(ops, a) ==
              Plan([OpAssignment(BoxTranslate, Vector(a.translation)), OpAssignment(BoxRotate, Vector(a.euler)),
                    OpAssignment(BoxScale, Vector(a.scale))], ops + [BoxTranslate] + [BoxRotate] + [BoxScale])
  {
    TranslateOnEmpty(ops);
    var s1 := ops + [BoxTranslate];
    FirstRotateTypeAfterTranslate(ops, a.order, PrecisionDouble);
    RotateAfterTranslate(s1, a);
    ScaleAfterRotate(s1 + [BoxRotate]);
    SrtPlanOfThreeLookups(ops, a, BoxTranslate, BoxRotate, BoxScale);
  }

  /** When the op/value list names every op of the new stack once, in stack
      order, and the stack has neither a matrix op nor a translate:pivot op,
      set_transform keeps that stack and writes the list. */
  lemma SrtKeepsPlanStack(ops: seq<XformOp>, values: map<XformOp, OpValue>, a: SrtArgs)
    requires FirstIndexWhere(ops, IsTransformOp).None? && SrtDefined(ops, a.order)
    requires OpsOf(SrtPlan(ops, a).assignments) == SrtPlan(ops, a).ops
    requires forall i :: 0 <= i < |SrtPlan(ops, a).ops| ==> !Matches(TypeTranslate, "pivot", SrtPlan(ops, a).ops[i])
    ensures SetTransformDefined(ops, a.order)
    ensures SetTransformOutcome(ops, values, a) == (SrtPlan(ops, a).ops, WriteAll(values, SrtPlan(ops, a).assignments))
  {
    var p := SrtPlan(ops, a);
    FindOrAddNoMatch(p.ops, TypeTranslate, false, PrecisionDouble, "pivot");
    assert OpsOf(p.assignments) + [] == p.ops;
    MergeOrderSame(p.ops);
  }

  /** The list of SrtPlanOnEmpty names the stack's ops in order, and none of them is a pivot. */
  lemma ThreeOpStack(ops: seq<XformOp>, assigns: seq<OpAssignment>, stack: seq<XformOp>)
    requires ops == [] && stack == ops + [BoxTranslate] + [BoxRotate] + [BoxScale]
    requires |assigns| == 3 && assigns[0].op == BoxTranslate && assigns[1].op == BoxRotate && assigns[2].op == BoxScale
    ensures stack == BoxStack && OpsOf(assigns) == stack
    ensures forall i :: 0 <= i < |stack| ==> !Matches(TypeTranslate, "pivot", stack[i])
  {
    TranslateIsNoPivot();
  }

  /** The stack set_transform leaves on a prim with no ops for rotation order
      (0, 1, 2): new translate, rotateXYZ and scale ops in that order, holding
      the translation, the Euler angles and the scale. */
  lemma SrtOnEmptyPrim(ops: seq<XformOp>, values: map<XformOp, OpValue>, a: SrtArgs)
    requires ops == [] && a.order == Vec3i(0, 1, 2)
    ensures SetTransformDefined(ops, a.order)
    ensures SetTransformOutcome(ops, values, a) ==
              (BoxStack, values[BoxTranslate := Vector(a.translation)][BoxRotate := Vector(a.euler)][BoxScale := Vector(a.scale)])
  {
    SrtPlanOnEmpty(ops, a);
    var p := SrtPlan(ops, a);
    ThreeOpStack(ops, p.assignments, p.ops);
    SrtKeepsPlanStack(ops, values, a);
    WriteThree(values, p.assignments);
  }

  /** The ops and values createBox leaves on the new box. */
  lemma PyBoxTransform()
    ensures SetTransformDefined([], PyBoxArgs.order)
    ensures SetTransformOutcome([], map[], PyBoxArgs) == (BoxStack, PyBoxValues)
  {
    SrtOnEmptyPrim([], map[], PyBoxArgs);
  }

  /** The Python box carries the C++ box's translate and rotate ops with the
      same values, and after them a unit scale op, which the C++ box lacks. */
  lemma BoxTransformAgainstCpp()
    ensures BoxStack == [C.CppBoxTranslate, C.CppBoxRotate] + [BoxScale]
    ensures PyBoxValues == map[C.CppBoxTranslate := Vector(Vec3(0.0, 100.0, 0.0)),
                               C.CppBoxRotate := Vector(Vec3(20.0, 0.0, 20.0))][BoxScale := Vector(One3)]
  {
  }

  lemma BoxOpsDistinct()
    ensures BoxTranslate != BoxRotate && BoxTranslate != BoxScale && BoxRotate != BoxScale
  {
    assert BoxTranslate.opType == TypeTranslate && BoxRotate.opType == TypeRotateXYZ && BoxScale.opType == TypeScale;
  }

  /** Writing a three-entry op/value list. */
  lemma WriteThree(values: map<XformOp, OpValue>, assigns: seq<OpAssignment>)
    requires |assigns| == 3
    ensures WriteAll(values, assigns) ==
              values[assigns[0].op := assigns[0].value][assigns[1].op := assigns[1].value][assigns[2].op := assigns[2].value]
  {
    var v1 := values[assigns[0].op := assigns[0].value];
    var v2 := v1[assigns[1].op := assigns[1].value];
    var v3 := v2[assigns[2].op := assigns[2].value];
    assert assigns[1..][1..] == assigns[2..];
    assert assigns[2..][1..] == [];
    assert WriteAll(v3, []) == v3;
    assert WriteAll(v2, assigns[2..]) == v3;
    assert WriteAll(v1, assigns[1..]) == v3;
  }

  /** The box createBox leaves is a box-like stack, so the live edit on it
      behaves as in C++ (PySessionAgreesWithCpp). */
  lemma PyBoxIsBoxLike()
    ensures BoxLikeStack(BoxStack, PyBoxValues)
  {
    OpNameShape(TypeTranslate, "");
    OpNameShape(TypeRotateXYZ, "");
    OpNameShape(TypeScale, "");
    TranslateIsNoPivot();
    BoxOpsDistinct();
    BoxLikeOfThree(BoxStack, PyBoxValues, BoxTranslate, BoxRotate, BoxScale,
                   Vec3(0.0, 100.0, 0.0), Vec3(20.0, 0.0, 20.0), One3);
  }

  lemma BoxLikeOfThree(ops: seq<XformOp>, values: map<XformOp, OpValue>, t: XformOp, r: XformOp, s: XformOp,
                       vt: Vec3, vr: Vec3, vs: Vec3)
    requires ops == [t, r, s] && values == map[t := Vector(vt), r := Vector(vr), s := Vector(vs)]
    requires t.opType == TypeTranslate && r.opType == TypeRotateXYZ && s.opType == TypeScale
    requires NameMatches(t, "") && NameMatches(r, "") && NameMatches(s, "") && !NameMatches(t, "pivot")
    ensures BoxLikeStack(ops, values)
  {
  }

  // ---------------------------------------------------------------------------
  // createOmniverseModel, findGeomMesh, main
  // ---------------------------------------------------------------------------

  /** The stage createOmniverseModel creates under the destination folder. */
  function StageUrl(path: string): (url: string)
    ensures StartsWith(url, path) && EndsWith(url, "/helloworld_py.usd")
  {
    var url := path + "/helloworld_py.usd";
    assert url[|url| - |"/helloworld_py.usd"|..] == "/helloworld_py.usd";
    url
  }

  /** How the program ends early: sys.exit with a message, or an exception
      that nobody catches. */
  datatype PyEnd = Exited(message: string) | Raised(exception: string)

  /** sys.exit(*args) as called: with one argument it exits with that
      message; with more it raises TypeError, because sys.exit takes at most
      one argument. */
  function SysExit(args: seq<string>): (e: PyEnd)
    requires args != []
    ensures e.Exited? <==> |args| == 1
    ensures e.Exited? ==> e.message == args[0]
  {
    if |args| == 1 then Exited(args[0]) else Raised("TypeError")
  }

  const NoMeshMessage: string := "[ERROR] No UsdGeomMesh found in stage:"

  /** The last statement of findGeomMesh as written: the stage URL is passed
      to sys.exit as a second argument. */
  function NoMeshEndAsWritten(existing: string): (e: PyEnd)
    ensures e == Raised("TypeError")
  {
    SysExit([NoMeshMessage, existing])
  }

  /** What that statement evidently means: exit with a message that ends in
      the stage URL, as the "Unable to open stage" exit above it does. */
  function NoMeshEnd(existing: string): (e: PyEnd)
    ensures e.Exited? && StartsWith(e.message, NoMeshMessage) && EndsWith(e.message, existing)
  {
    var m := NoMeshMessage + existing;
    assert m[|m| - |existing|..] == existing;
    SysExit([m])
  }

  /** A stage without a mesh: the code as written raises TypeError instead of
      exiting with the message. */
  lemma NoMeshRaisesTypeError()
    ensures NoMeshEndAsWritten("omniverse://localhost/Users/test/empty.usd") == Raised("TypeError")
    ensures NoMeshEnd("omniverse://localhost/Users/test/empty.usd") ==
              Exited(NoMeshMessage + "omniverse://localhost/Users/test/empty.usd")
  {
  }

  datatype MeshLookup = FoundMesh(prim: C.StagePrim) | Ended(end: PyEnd)

  /** findGeomMesh, with the no-mesh exit as intended: exit when the stage
      does not open, else the first mesh in traversal order, else exit. */
  function FindGeomMeshSpec(existing: string, stageOpened: bool, traversal: seq<C.StagePrim>): MeshLookup {
    if !stageOpened then Ended(SysExit(["[ERROR] Unable to open stage" + existing]))
    else
      match C.FirstMesh(traversal)
      case Some(p) => FoundMesh(p)
      case None => Ended(NoMeshEnd(existing))
  }

  /** findGeomMesh: the traversal loop. */
  method FindGeomMesh(existing: string, stageOpened: bool, traversal: seq<C.StagePrim>) returns (r: MeshLookup)
    ensures r == FindGeomMeshSpec(existing, stageOpened, traversal)
  {
    if !stageOpened {
      return Ended(SysExit(["[ERROR] Unable to open stage" + existing]));
    }
    var i := 0;
    while i < |traversal|
      invariant 0 <= i <= |traversal|
      invariant forall j :: 0 <= j < i ==> !C.IsMeshPrim(traversal[j])
    {
      if traversal[i].isMesh {
        assert FirstIndexWhere(traversal, C.IsMeshPrim) == Some(i);
        return FoundMesh(traversal[i]);
      }
      i := i + 1;
    }
    assert FirstIndexWhere(traversal, C.IsMeshPrim) == None;
    return Ended(NoMeshEnd(existing));
  }

  /** The Python search finds the mesh the C++ search finds; where the C++
      search returns an empty mesh the Python one exits. */
  lemma FindGeomMeshAgreesWithCpp(existing: string, stageOpened: bool, traversal: seq<C.StagePrim>)
    ensures var r := FindGeomMeshSpec(existing, stageOpened, traversal);
            var c := if stageOpened then C.FirstMesh(traversal) else None;
            (r.FoundMesh? <==> c.Some?) && (r.FoundMesh? ==> r.prim == c.value && r.prim.isMesh) &&
            (r.Ended? ==> r.end.Exited?)
  {
    C.FirstMeshIsFirst(traversal);
  }

  /** How main ends (None: it returns after shutting Omniverse down), the
      warnings it logged, the stage it created, and the mesh it ran the live
      edit on. */
  datatype PyMainResult = PyMainResult(end: Option<PyEnd>, warnings: seq<PyWarning>, createdStage: Option<string>,
                                       liveEditPrim: Option<string>)

  /** The main block after argparse: start Omniverse (exit if that fails),
      log the URL warnings, then either create a new stage with a box or find
      a mesh in the existing stage, and run the live edit on that mesh in live
      mode. `initOk` is omni.client.initialize()'s result; `defineOk`,
      `cubeOk` and `quadOk` say whether the box, the dynamic cube and the quad
      prims are valid (createDynamicCube and createQuad exit, both with the
      cube message, when theirs is not); `stageOpened` and `traversal` are
      what Usd.Stage.Open gives for the existing stage. */
  function PyMain(a: PyArgs, breakUrl: string -> C.OmniUrl, initOk: bool, defineOk: bool, cubeOk: bool, quadOk: bool,
                  stageOpened: bool, traversal: seq<C.StagePrim>): (r: PyMainResult)
    ensures r.end.None? <==>
              initOk && (if Truthy(a.existing) then stageOpened && C.FirstMesh(traversal).Some?
                         else defineOk && cubeOk && quadOk)
    ensures initOk && !Truthy(a.existing) && defineOk && !(cubeOk && quadOk) ==>
              r.end == Some(SysExit(["[ERROR] Failure to create cube"]))
    ensures r.liveEditPrim.Some? <==> r.end.None? && LiveEditMode(a)
    ensures r.createdStage.Some? <==> initOk && !Truthy(a.existing)
    ensures r.end.Some? ==> r.end.value.Exited?
  {
    if !initOk then PyMainResult(Some(SysExit(["[ERROR] Unable to initialize Omniverse client, exiting."])), [], None, None)
    else
      var w := Warnings(a, breakUrl);
      var mesh: MeshLookup :=
        if !Truthy(a.existing) then
          if !defineOk then Ended(SysExit(["[ERROR] Failure to create box"]))
          else if !cubeOk || !quadOk then Ended(SysExit(["[ERROR] Failure to create cube"]))
          else FoundMesh(C.StagePrim(BoxPrimPath("/Root", 0), true))
        else FindGeomMeshSpec(a.existing.value, stageOpened, traversal);
      var created := if Truthy(a.existing) then None else Some(StageUrl(a.path));
      match mesh
      case Ended(e) => PyMainResult(Some(e), w, created, None)
      case FoundMesh(p) => PyMainResult(None, w, created, if LiveEditMode(a) then Some(p.path) else None)
  }

  /** The "Unable to create or find mesh" exit is never reached: each path
      either exits before it or has a mesh. With --existing the live edit
      runs on the first mesh of the stage, otherwise on /Root/box_0. */
  lemma PyMainLiveEditPrim(a: PyArgs, breakUrl: string -> C.OmniUrl, initOk: bool, defineOk: bool, cubeOk: bool,
                           quadOk: bool, stageOpened: bool, traversal: seq<C.StagePrim>)
    ensures var r := PyMain(a, breakUrl, initOk, defineOk, cubeOk, quadOk, stageOpened, traversal);
            r.liveEditPrim.Some? ==>
              if Truthy(a.existing) then r.liveEditPrim.value == C.FirstMesh(traversal).value.path
              else r.liveEditPrim.value == BoxPrimPath("/Root", 0)
    ensures var r := PyMain(a, breakUrl, initOk, defineOk, cubeOk, quadOk, stageOpened, traversal);
            r.end.None? ==> r.warnings == Warnings(a, breakUrl)
  {
  }

  // ---------------------------------------------------------------------------
  // run_live_edit
  // ---------------------------------------------------------------------------

  /** The live-edit state: the box's stack and values, the angle, and whether
      get_srt_xform_from_prim has raised, which ends the session (and the
      program) with the exception. */
  datatype LiveState = LiveState(ops: seq<XformOp>, values: map<XformOp, OpValue>, angle: int, raised: bool)

  /** `angle = (angle + 15) % 360`. */
  function PyNextAngle(angle: int): int {
    (angle + 15) % 360
  }

  /** On the angles the session produces, the modulo agrees with the C++
      reset to 0. */
  lemma PyNextAngleAgreesWithCpp(angle: int)
    requires C.ValidAngle(angle)
    ensures PyNextAngle(angle) == C.NextAngle(angle) && C.ValidAngle(PyNextAngle(angle))
  {
  }

  /** The rotation order the live edit always writes. */
  const LiveOrder: Vec3i := Vec3i(0, 1, 2)

  /** The TransformPrimSRT arguments of a 't': the transform read back, moved
      by (x, 0, y) on the circle, its Y rotation replaced by the angle. */
  function MoveArgs(srt: Srt, angle: int, circle: int -> (real, real)): SrtArgs {
    var xy := circle(angle);
    SrtArgs(Add(srt.translate, Vec3(xy.0, 0.0, xy.1)), Vec3(srt.rotXyz.x, angle as real, srt.rotXyz.z), LiveOrder, srt.scale)
  }

  /** Order (0, 1, 2) is always a valid list index, so the TransformPrimSRT of
      a 't' never raises. */
  lemma LiveOrderDefined(ops: seq<XformOp>)
    ensures SetTransformDefined(ops, LiveOrder)
  {
  }

  /** One 't': advance the angle, read the transform back, write it moved. */
  function PyKeyT(s: LiveState, circle: int -> (real, real), decomposeMatrix: OpValue -> Srt,
                  decomposeOrient: OpValue -> Vec3): (r: LiveState)
    ensures r.raised <==> s.raised || SrtFromPrim(s.ops, s.values, None, decomposeMatrix, decomposeOrient).None?
    ensures r.raised ==> (r.ops, r.values) == (s.ops, s.values)
  {
    var angle := PyNextAngle(s.angle);
    if s.raised then s
    else
      match SrtFromPrim(s.ops, s.values, None, decomposeMatrix, decomposeOrient)
      case None => s.(angle := angle, raised := true)
      case Some(srt) =>
        LiveOrderDefined(s.ops);
        var (ops, values) := SetTransformOutcome(s.ops, s.values, MoveArgs(srt, angle, circle));
        LiveState(ops, values, angle, false)
  }

  /** The key loop of run_live_edit on the keys still to be read: 't' moves
      the box, 'q' or escape ends the session, any other key only logs a hint.
      The session also ends when get_srt_xform_from_prim raises, or when the
      keys run out. */
  function RunLiveKeys(s: LiveState, keys: seq<char>, circle: int -> (real, real), decomposeMatrix: OpValue -> Srt,
                       decomposeOrient: OpValue -> Vec3): LiveState
    decreases |keys|
  {
    if keys == [] || s.raised then s
    else if keys[0] == 't' then RunLiveKeys(PyKeyT(s, circle, decomposeMatrix, decomposeOrient), keys[1..], circle, decomposeMatrix, decomposeOrient)
    else if C.IsQuitKey(keys[0]) then s
    else RunLiveKeys(s, keys[1..], circle, decomposeMatrix, decomposeOrient)
  }

  /** When the session does not raise, its angle is the C++ session's angle. */
  lemma {:induction false} RunLiveKeysAngle(s: LiveState, keys: seq<char>, circle: int -> (real, real),
                                            decomposeMatrix: OpValue -> Srt, decomposeOrient: OpValue -> Vec3)
    requires C.ValidAngle(s.angle) && !s.raised
    ensures var r := RunLiveKeys(s, keys, circle, decomposeMatrix, decomposeOrient);
            C.ValidAngle(r.angle) &&
            (!r.raised ==> r.angle == C.AngleAfter(s.angle, keys) &&
                           r.angle == (s.angle + 15 * CountChar(C.UntilQuit(keys), 't')) % 360)
    decreases |keys|
  {
    C.AngleAfterCount(s.angle, keys);
    C.AngleAfterValid(s.angle, keys);
    if keys != [] {
      if keys[0] == 't' {
        var n := PyKeyT(s, circle, decomposeMatrix, decomposeOrient);
        PyNextAngleAgreesWithCpp(s.angle);
        assert n.angle == C.NextAngle(s.angle);
        if !n.raised {
          RunLiveKeysAngle(n, keys[1..], circle, decomposeMatrix, decomposeOrient);
        }
      } else if !C.IsQuitKey(keys[0]) {
        RunLiveKeysAngle(s, keys[1..], circle, decomposeMatrix, decomposeOrient);
      }
    }
  }

  /** 'q' or escape ends the session: nothing after it is read. */
  lemma {:induction false} PyQuitEndsSession(s: LiveState, pre: seq<char>, q: char, post: seq<char>, circle: int -> (real, real),
                                             decomposeMatrix: OpValue -> Srt, decomposeOrient: OpValue -> Vec3)
    requires forall i :: 0 <= i < |pre| ==> !C.IsQuitKey(pre[i])
    requires C.IsQuitKey(q)
    ensures RunLiveKeys(s, pre + [q] + post, circle, decomposeMatrix, decomposeOrient) ==
            RunLiveKeys(s, pre, circle, decomposeMatrix, decomposeOrient)
    decreases |pre|
  {
    if pre == [] {
      assert (pre + [q] + post)[0] == q;
    } else {
      assert (pre + [q] + post)[0] == pre[0];
      assert (pre + [q] + post)[1..] == pre[1..] + [q] + post;
      if pre[0] == 't' {
        PyQuitEndsSession(PyKeyT(s, circle, decomposeMatrix, decomposeOrient), pre[1..], q, post, circle, decomposeMatrix, decomposeOrient);
      } else {
        PyQuitEndsSession(s, pre[1..], q, post, circle, decomposeMatrix, decomposeOrient);
      }
    }
  }

  /** A key other than 't', 'q' and escape changes neither the angle nor the box. */
  lemma {:induction false} PyOtherKeyChangesNothing(s: LiveState, pre: seq<char>, c: char, post: seq<char>,
                                                    circle: int -> (real, real), decomposeMatrix: OpValue -> Srt,
                                                    decomposeOrient: OpValue -> Vec3)
    requires c != 't' && !C.IsQuitKey(c)
    ensures RunLiveKeys(s, pre + [c] + post, circle, decomposeMatrix, decomposeOrient) ==
            RunLiveKeys(s, pre + post, circle, decomposeMatrix, decomposeOrient)
    decreases |pre|
  {
    if pre == [] {
      assert (pre + [c] + post)[0] == c;
      assert (pre + [c] + post)[1..] == post;
      assert pre + post == post;
    } else {
      assert (pre + [c] + post)[0] == pre[0];
      assert (pre + [c] + post)[1..] == pre[1..] + [c] + post;
      assert (pre + post)[0] == pre[0];
      assert (pre + post)[1..] == pre[1..] + post;
      if pre[0] == 't' {
        PyOtherKeyChangesNothing(PyKeyT(s, circle, decomposeMatrix, decomposeOrient), pre[1..], c, post, circle, decomposeMatrix, decomposeOrient);
      } else if !C.IsQuitKey(pre[0]) {
        PyOtherKeyChangesNothing(s, pre[1..], c, post, circle, decomposeMatrix, decomposeOrient);
      }
    }
  }

  /** The body of run_live_edit's loop for a 't': advance the angle, read
      the transform back, write it moved; `raised` when the read raises. */
  method LiveMove(prim: Xformable, angle0: int, circle: int -> (real, real), decomposeMatrix: OpValue -> Srt,
                  decomposeOrient: OpValue -> Vec3) returns (angle: int, raised: bool)
    modifies prim
    ensures LiveState(prim.ops, prim.values, angle, raised) ==
            PyKeyT(LiveState(old(prim.ops), old(prim.values), angle0, false), circle, decomposeMatrix, decomposeOrient)
  {
    angle := (angle0 + 15) % 360;
    raised := false;
    var srt := GetSrtXformFromPrim(prim, None, decomposeMatrix, decomposeOrient);
    if srt.None? {
      raised := true;
    } else {
      var xy := circle(angle);
      var translate := Add(srt.value.translate, Vec3(xy.0, 0.0, xy.1));
      var rotXyz := Vec3(srt.value.rotXyz.x, angle as real, srt.value.rotXyz.z);
      var action := TransformPrimSRT.Create(prim, translate, rotXyz, Vec3i(0, 1, 2), srt.value.scale);
      LiveOrderDefined(prim.ops);
      action.value.SetTransform();
    }
  }

  /** run_live_edit: the `while True` key loop, from angle 0. `raised` is set
      when get_srt_xform_from_prim raises, which leaves the loop. */
  method RunLiveEdit(prim: Xformable, keys: seq<char>, circle: int -> (real, real), decomposeMatrix: OpValue -> Srt,
                     decomposeOrient: OpValue -> Vec3) returns (angle: int, raised: bool)
    modifies prim
    ensures LiveState(prim.ops, prim.values, angle, raised) ==
            RunLiveKeys(LiveState(old(prim.ops), old(prim.values), 0, false), keys, circle, decomposeMatrix, decomposeOrient)
  {
    angle := 0;
    raised := false;
    ghost var start := LiveState(prim.ops, prim.values, 0, false);
    var k := 0;
    var done := false;
    while !done && k < |keys|
      invariant 0 <= k <= |keys|
      invariant !done ==> !raised
      invariant !done ==>
        RunLiveKeys(LiveState(prim.ops, prim.values, angle, raised), keys[k..], circle, decomposeMatrix, decomposeOrient) ==
        RunLiveKeys(start, keys, circle, decomposeMatrix, decomposeOrient)
      invariant done ==> LiveState(prim.ops, prim.values, angle, raised) ==
                         RunLiveKeys(start, keys, circle, decomposeMatrix, decomposeOrient)
      decreases |keys| - k, !done
    {
      var option := keys[k];
      assert keys[k..][0] == option && keys[k..][1..] == keys[k + 1..];
      if option == 't' {
        angle, raised := LiveMove(prim, angle, circle, decomposeMatrix, decomposeOrient);
        done := raised;
      } else if option == 'q' || option == C.Esc {
        done := true;
      }
      k := k + 1;
    }
  }

  // ---------------------------------------------------------------------------
  // The live edit on the box's own stack, against the C++ live edit
  // ---------------------------------------------------------------------------

  /** A stack like the one createBox leaves: a translate, a rotateXYZ and a
      scale op without suffix, each holding a vector, none of them a pivot. */
  predicate BoxLikeStack(ops: seq<XformOp>, values: map<XformOp, OpValue>) {
    |ops| == 3 &&
    ops[0].opType == TypeTranslate && ops[1].opType == TypeRotateXYZ && ops[2].opType == TypeScale &&
    NameMatches(ops[0], "") && NameMatches(ops[1], "") && NameMatches(ops[2], "") &&
    !NameMatches(ops[0], "pivot") &&
    (forall i :: 0 <= i < 3 ==> ops[i] in values && values[ops[i]].Vector?)
  }

  /** get_srt_xform_from_prim on such a stack reads the three vectors. */
  lemma SrtFromBoxLikeStack(ops: seq<XformOp>, values: map<XformOp, OpValue>,
                            decomposeMatrix: OpValue -> Srt, decomposeOrient: OpValue -> Vec3)
    requires BoxLikeStack(ops, values)
    ensures SrtFromPrim(ops, values, None, decomposeMatrix, decomposeOrient) ==
              Some(Srt(values[ops[0]].v, values[ops[1]].v, values[ops[2]].v))
  {
    assert ops[..2][..1] == ops[..1];
    assert ops[..1][..0] == [];
    assert ops[..3] == ops;
    var start := SrtSums(Zero3, Zero3, None);
    var t := values[ops[0]].v;
    var r := values[ops[1]].v;
    var sc := values[ops[2]].v;
    assert Sums(ops[..0], values, start, decomposeMatrix, decomposeOrient) == Some(start);
    assert Add(Zero3, t) == t && Add(Zero3, r) == r && Add(Zero3, sc) == sc;
    var s1 := Sums(ops[..1], values, start, decomposeMatrix, decomposeOrient);
    assert s1 == Step(start, ops[0], values, decomposeMatrix, decomposeOrient);
    assert s1 == Some(SrtSums(t, Zero3, None));
    var s2 := Sums(ops[..2], values, start, decomposeMatrix, decomposeOrient);
    assert s2 == Step(s1.value, ops[1], values, decomposeMatrix, decomposeOrient);
    assert s2 == Some(SrtSums(t, r, None));
    var s3 := Sums(ops[..3], values, start, decomposeMatrix, decomposeOrient);
    assert s3 == Step(s2.value, ops[2], values, decomposeMatrix, decomposeOrient);
    assert s3 == Some(SrtSums(t, r, Some(sc)));
  }

  /** _get_srt_xform_op_values from the three lookups it makes, when each finds an op. */
  lemma SrtPlanOfFoundLookups(ops: seq<XformOp>, a: SrtArgs, rp: Precision)
    requires |ops| == 3 && SrtDefined(ops, a.order)
    requires FindOrAddPlan(ops, TypeTranslate, true, PrecisionDouble, "") == Found(Some(ops[0]), ops)
    requires FirstRotateTypeSpec(ops, a.order) == (TypeRotateXYZ, rp)
    requires RotatePlan(ops, TypeRotateXYZ, rp, a) == Plan([OpAssignment(ops[1], Vector(a.euler))], ops)
    requires FindOrAddPlan(ops, TypeScale, true, PrecisionDouble, "") == Found(Some(ops[2]), ops)
    ensures SrtPlan(ops, a) ==
              Plan([OpAssignment(ops[0], Vector(a.translation)), OpAssignment(ops[1], Vector(a.euler)),
                    OpAssignment(ops[2], Vector(a.scale))], ops)
  {
    FirstRotateTypeAfterTranslate(ops, a.order, PrecisionDouble);
    var rot := RotatePlan(ops, TypeRotateXYZ, rp, a);
    Concat3(OpAssignment(ops[0], Vector(a.translation)), rot.assignments, OpAssignment(ops[1], Vector(a.euler)),
            OpAssignment(ops[2], Vector(a.scale)));
  }

  /** _get_srt_xform_op_values on such a stack reuses its three ops. */
  lemma SrtPlanOnBoxLikeStack(ops: seq<XformOp>, values: map<XformOp, OpValue>, a: SrtArgs)
    requires BoxLikeStack(ops, values) && a.order == LiveOrder
    ensures SrtDefined(ops, a.order)
    ensures SrtPlan(ops, a) ==
              Plan([OpAssignment(ops[0], Vector(a.translation)), OpAssignment(ops[1], Vector(a.euler)),
                    OpAssignment(ops[2], Vector(a.scale))], ops)
  {
    SrtPlanOnTypedStack(ops, a);
  }

  /** The same on any stack of an unsuffixed translate, rotateXYZ and scale op. */
  lemma SrtPlanOnTypedStack(ops: seq<XformOp>, a: SrtArgs)
    requires |ops| == 3 && ops[0].opType == TypeTranslate && ops[1].opType == TypeRotateXYZ && ops[2].opType == TypeScale
    requires NameMatches(ops[0], "") && NameMatches(ops[1], "") && NameMatches(ops[2], "")
    ensures SrtDefined(ops, a.order)
    ensures SrtPlan(ops, a) ==
              Plan([OpAssignment(ops[0], Vector(a.translation)), OpAssignment(ops[1], Vector(a.euler)),
                    OpAssignment(ops[2], Vector(a.scale))], ops)
  {
    FindOrAddFindsAt(ops, 0, TypeTranslate, true, PrecisionDouble, "");
    var rp := ops[1].precision;
    FirstRotateOnTypedStack(ops, a.order);
    FindOrAddFindsAt(ops, 1, TypeRotateXYZ, true, rp, "");
    RotatePlanThreeAxis(ops, TypeRotateXYZ, rp, a);
    FindOrAddFindsAt(ops, 2, TypeScale, true, PrecisionDouble, "");
    SrtPlanOfFoundLookups(ops, a, rp);
  }

  lemma FirstRotateOnTypedStack(ops: seq<XformOp>, order: Vec3i)
    requires |ops| == 3 && ops[0].opType == TypeTranslate && ops[1].opType == TypeRotateXYZ
    ensures FirstRotateTypeSpec(ops, order) == (TypeRotateXYZ, ops[1].precision)
  {
    assert !IsRotateOp(ops[0]) && IsRotateOp(ops[1]);
    assert FirstIndexWhere(ops, IsRotateOp) == Some(1);
  }

  /** set_transform with order (0, 1, 2) on such a stack keeps the stack and
      writes the three vectors. */
  lemma SetTransformOnBoxLikeStack(ops: seq<XformOp>, values: map<XformOp, OpValue>, a: SrtArgs)
    requires BoxLikeStack(ops, values) && a.order == LiveOrder
    ensures SetTransformDefined(ops, a.order)
    ensures SetTransformOutcome(ops, values, a) ==
              (ops, values[ops[0] := Vector(a.translation)][ops[1] := Vector(a.euler)][ops[2] := Vector(a.scale)])
  {
    BoxLikeStackParts(ops, values);
    SrtPlanOnBoxLikeStack(ops, values, a);
    var p := SrtPlan(ops, a);
    BoxLikeStackOps(ops, values, p.assignments);
    SrtKeepsPlanStack(ops, values, a);
    WriteThree(values, p.assignments);
  }

  lemma BoxLikeStackParts(ops: seq<XformOp>, values: map<XformOp, OpValue>)
    requires BoxLikeStack(ops, values)
    ensures FirstIndexWhere(ops, IsTransformOp).None?
    ensures forall i :: 0 <= i < |ops| ==> !Matches(TypeTranslate, "pivot", ops[i])
  {
    TypedStackParts(ops);
  }

  lemma TypedStackParts(ops: seq<XformOp>)
    requires |ops| == 3 && ops[0].opType == TypeTranslate && ops[1].opType == TypeRotateXYZ && ops[2].opType == TypeScale
    requires !NameMatches(ops[0], "pivot")
    ensures FirstIndexWhere(ops, IsTransformOp).None?
    ensures forall i :: 0 <= i < |ops| ==> !Matches(TypeTranslate, "pivot", ops[i])
  {
    assert forall i :: 0 <= i < |ops| ==> !IsTransformOp(ops[i]);
  }

  lemma BoxLikeStackOps(ops: seq<XformOp>, values: map<XformOp, OpValue>, assigns: seq<OpAssignment>)
    requires BoxLikeStack(ops, values)
    requires |assigns| == 3 && assigns[0].op == ops[0] && assigns[1].op == ops[1] && assigns[2].op == ops[2]
    ensures OpsOf(assigns) == ops
  {
  }

  /** The C++ 't' step on such a stack reuses the same three ops. */
  lemma CppMoveOnBoxLikeStack(ops: seq<XformOp>, values: map<XformOp, OpValue>, angle: int, circle: int -> (real, real))
    requires BoxLikeStack(ops, values)
    ensures var h := C.Scan(ops, values);
            var xy := circle(angle);
            C.MoveBox(ops, values, angle, circle) ==
              (ops, values[ops[0] := Vector(Add(values[ops[0]].v, Vec3(xy.0, 0.0, xy.1)))]
                          [ops[1] := Vector(Vec3(values[ops[1]].v.x, angle as real, values[ops[1]].v.z))]
                          [ops[2] := Vector(values[ops[2]].v)])
  {
    assert ops[..2][..1] == ops[..1];
    assert ops[..1][..0] == [];
    assert ops[..3] == ops;
    var h1 := C.ScanStep(C.NoHandles, ops[0], values);
    assert C.Scan(ops[..1], values) == h1;
    var h2 := C.ScanStep(h1, ops[1], values);
    assert C.Scan(ops[..2], values) == h2;
    var h := C.ScanStep(h2, ops[2], values);
    assert C.Scan(ops, values) == h;
    assert h.translateOp == Some(ops[0]) && h.rotateOp == Some(ops[1]) && h.scaleOp == Some(ops[2]);
    assert h.position == values[ops[0]].v && h.rotXyz == values[ops[1]].v && h.scale == values[ops[2]].v;
    assert ops == [ops[0], ops[1], ops[2]];
  }

  /** One 't' on a box-like stack does in Python what it does in C++, and
      leaves a box-like stack. */
  lemma PyMoveAgreesWithCpp(s: LiveState, circle: int -> (real, real), decomposeMatrix: OpValue -> Srt,
                            decomposeOrient: OpValue -> Vec3)
    requires !s.raised && C.ValidAngle(s.angle) && BoxLikeStack(s.ops, s.values)
    ensures var r := PyKeyT(s, circle, decomposeMatrix, decomposeOrient);
            var c := C.KeyT(C.Session(s.ops, s.values, s.angle), circle);
            r == LiveState(c.ops, c.values, c.angle, false) && BoxLikeStack(r.ops, r.values)
  {
    SrtFromBoxLikeStack(s.ops, s.values, decomposeMatrix, decomposeOrient);
    var srt := Srt(s.values[s.ops[0]].v, s.values[s.ops[1]].v, s.values[s.ops[2]].v);
    var angle := PyNextAngle(s.angle);
    PyNextAngleAgreesWithCpp(s.angle);
    var a := MoveArgs(srt, angle, circle);
    SetTransformOnBoxLikeStack(s.ops, s.values, a);
    var written := s.values[s.ops[0] := Vector(a.translation)][s.ops[1] := Vector(a.euler)][s.ops[2] := Vector(a.scale)];
    assert PyKeyT(s, circle, decomposeMatrix, decomposeOrient) == LiveState(s.ops, written, angle, false);
    CppMoveOnBoxLikeStack(s.ops, s.values, angle, circle);
    assert C.KeyT(C.Session(s.ops, s.values, s.angle), circle) == C.Session(s.ops, written, angle);
    BoxLikeStackWrite(s.ops, s.values, a.translation, a.euler, a.scale);
  }

  /** Writing three vectors onto a box-like stack keeps it box-like. */
  lemma BoxLikeStackWrite(ops: seq<XformOp>, values: map<XformOp, OpValue>, t: Vec3, e: Vec3, sc: Vec3)
    requires BoxLikeStack(ops, values)
    ensures BoxLikeStack(ops, values[ops[0] := Vector(t)][ops[1] := Vector(e)][ops[2] := Vector(sc)])
  {
  }

  /** A whole Python session that starts on a box-like stack is the C++
      session on the same keys: it never raises, and it leaves the same
      stack, values and angle. */
  lemma {:induction false} PySessionAgreesWithCpp(s: LiveState, keys: seq<char>, circle: int -> (real, real),
                                                  decomposeMatrix: OpValue -> Srt, decomposeOrient: OpValue -> Vec3)
    requires !s.raised && C.ValidAngle(s.angle) && BoxLikeStack(s.ops, s.values)
    ensures var r := RunLiveKeys(s, keys, circle, decomposeMatrix, decomposeOrient);
            var c := C.RunKeys(C.Session(s.ops, s.values, s.angle), keys, circle);
            r == LiveState(c.ops, c.values, c.angle, false)
    decreases |keys|
  {
    if keys != [] {
      if keys[0] == 't' {
        PyMoveAgreesWithCpp(s, circle, decomposeMatrix, decomposeOrient);
        PyNextAngleAgreesWithCpp(s.angle);
        PySessionAgreesWithCpp(PyKeyT(s, circle, decomposeMatrix, decomposeOrient), keys[1..], circle,
                               decomposeMatrix, decomposeOrient);
      } else if !C.IsQuitKey(keys[0]) {
        PySessionAgreesWithCpp(s, keys[1..], circle, decomposeMatrix, decomposeOrient);
      }
    }
  }
}
