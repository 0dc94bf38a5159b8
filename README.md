# Omniverse Connect samples in Dafny

This project models the logic inside the Omniverse Connect sample programs and proves properties about it. It covers six pieces.

- **TransformPrimSRT** (`xform_utils.py`). This command writes a translate / rotate / scale transform onto a USD prim's ordered transform-op stack.
  - It finds or adds each op it needs.
  - It picks the rotation op type from the rotation order.
  - It merges the ops it set into the existing op order without disturbing the ops it does not touch.
  - `get_srt_xform_from_prim` reads such a transform back.
- **The C++ hello-world sample** (`helloWorld.cpp`):
  - its command-line parser;
  - the URL test;
  - the physics and checkpoint decisions;
  - the box it creates;
  - the search for a mesh in an existing stage;
  - the live-edit key loop, which moves the box on a circle 15 degrees per key press.
- **The Python hello-world sample** (`helloWorld.py`). It covers the same ground, with the transform written through TransformPrimSRT. Lemmas relate each decision to the C++ one: where the two agree and where they do not.
- **The simple-sensor sample** (`omniSimpleSensor.cpp`). Its zone grid gives zone *n* of *N* the cell at the mixed-radix digits of *n* in base floor(cbrt(*N*)). Cells are 150 units apart. The cell holds the shared box and is named `/World/box_<n>`.
- **The sensor-thread sample** (`omniSensorThread.cpp`). Its worker object advances a step counter 0..359 and writes a cosine-scaled colour each round. Its main attaches to the zone prim the simple-sensor sample created, then waits for a timeout.
- **The Windows build-tool finder** (`findwindowsbuildtools.py`). It selects a Visual Studio installation from vswhere's list and finds the MSVC version. It reads the Windows SDK directory and version from the batch file's `KEY=value` output. It then rewrites the source paths of the matching dependencies in the host-deps XML file.

## How the model is organised

| file | module | contents |
|---|---|---|
| `common.dfy` | `Common` | `Option` type, std::to_string / `'%d'` decimal text, C `atoi`, Python `str.count`, `in`, `rstrip` |
| `usd_xform.dfy` | `UsdXform` | the op type enumeration and tokens, `XformOp`, the `Xformable` class (op stack `ops` plus `values`) |
| `box_geometry.dfy` | `BoxGeometry` | the box tables shared by three samples, the array-filling loops, the box prim path |
| `xform_utils.dfy` | `XformUtils` | `TransformPrimSRT` as a class over an `Xformable`, its specification functions and lemmas, `get_srt_xform_from_prim` |
| `hello_world_cpp.dfy` | `HelloWorldCpp` | the C++ hello-world sample |
| `hello_world_py.dfy` | `HelloWorldPy` | the Python hello-world sample, and lemmas against the C++ model |
| `simple_sensor.dfy` | `SimpleSensor` | zone grid arithmetic with C++ truncating `/` and `%`, `createZoneGeometry`, `main` |
| `sensor_thread.dfy` | `SensorThread` | `DataStageWriterWorker` as a class, `attachToZoneGeometry`, `openOmniverseModel`, the wait loop and `main` |
| `find_build_tools.dfy` | `FindBuildTools` | `ntpath.join`, environment-line parsing, the find/replace table, `HostDeps` as a class over the dependency list, `find_vs`, `find_msvc_ver`, `run_command` |

The model follows the style of each source.

- **Loops become methods with `while` loops.** This covers:
  - the argument loop;
  - the scan over the op stack;
  - the key loops;
  - the merge of the op order;
  - the accumulation over the op stack;
  - the zone loop;
  - the worker loop;
  - the wait loop;
  - the environment-line loop;
  - the vswhere loop;
  - the dependency loops.

  Each such method is proved equal to a pure specification function of its inputs or of the old state. The lemmas are proved about those functions.
- **State that the source changes in place lives in classes.** These are the prim's op stack (`UsdXform.Xformable`), the command object (`XformUtils.TransformPrimSRT`), the sensor worker (`SensorThread.DataStageWriterWorker`) and the parsed dependency list (`FindBuildTools.HostDeps`).

Library results the samples only test are parameters of the model. These include omniClientBreakUrl, stage open/define success, stage traversal, server info, keyboard input, sine/cosine, vswhere's decoded list, the batch file's output, `os.path.exists` and `os.listdir`.

## Model

| member | source | states |
|---|---|---|
| `Common.IntToDecimal` | source/omniSimpleSensor/omniSimpleSensor.cpp:240 | std::to_string of an int: non-empty, a leading digit exactly for non-negative numbers and a leading '-' exactly for negative ones |
| `Common.AtoiIntToDecimal` | source/omniSensorThread/omniSensorThread.cpp:289 | atoi reads back every number std::to_string writes |
| `Common.IntToDecimalInjective` | source/omniSensorThread/omniSensorThread.cpp:201 | distinct numbers have distinct decimal texts |
| `Common.CountChar` | source/pyHelloWorld/xform_utils.py:230 | str.count of one character is at most the length, and 0 exactly when the character does not occur |
| `Common.Contains` | tools/repoman/findwindowsbuildtools.py:54 | Python `sub in s` holds exactly when `sub` occurs at some index of `s` |
| `Common.RStrip` | tools/repoman/findwindowsbuildtools.py:55 | rstrip of one character leaves a prefix that does not end with it, having removed only copies of it |
| `UsdXform.OpNameShape` | source/pyHelloWorld/xform_utils.py:230-231 | a new op's attribute name has exactly one ':' without a suffix, and ends with the suffix otherwise; so `_find_or_add` finds the ops it adds |
| `UsdXform.Xformable.AddXformOp` | source/pyHelloWorld/xform_utils.py:240 | AddXformOp appends the new op, with no time samples, to the order and leaves all values unchanged |
| `UsdXform.Xformable.SetXformOpOrder` | source/pyHelloWorld/xform_utils.py:352 | SetXformOpOrder replaces the order and keeps every value |
| `UsdXform.Xformable.SetValue` | source/pyHelloWorld/xform_utils.py:128 | Set at the default time changes that op's value only |
| `BoxGeometry.BoxTablesConsistent` | source/helloWorld/helloWorld.cpp:428-431 | 24 points, normals and UVs; 36 indices, each below 24, in 12 triangles that use them all; every point lies on its face plane (point · normal = 50); index i belongs to face i / 6 |
| `BoxGeometry.ShiftedBoxWellFormed` | source/omniSimpleSensor/omniSimpleSensor.cpp:264-297 | a box shifted by any offset still has 24 points, normals and UVs and valid indices; each point lies on the shifted face plane; a zero shift gives the base points |
| `BoxGeometry.CopyTable` | source/omniSimpleSensor/omniSimpleSensor.cpp:277-280 | the index and normal copy loops reproduce the table unchanged |
| `BoxGeometry.ShiftPoints` | source/omniSimpleSensor/omniSimpleSensor.cpp:267-270 | the point loop moves each of the 24 base points by the offset |
| `BoxGeometry.FillBoxMesh` | source/helloWorld/helloWorld.cpp:446-503 | the attribute loops of createBox produce the shifted box mesh tables |
| `BoxGeometry.BoxPrimPath` | source/helloWorld/helloWorld.cpp:436-438 | the box prim path starts with `root + "/box_"` |
| `BoxGeometry.BoxPrimPathInjective` | source/pyHelloWorld/helloWorld.py:251 | two box numbers give the same path exactly when they are equal |
| `XformUtils.RotateRangeIsRotateType` | source/pyHelloWorld/xform_utils.py:253 | the enumeration test RotateX <= type <= Orient holds exactly for the single-axis, three-axis and Orient types |
| `XformUtils.PyAxis` | source/pyHelloWorld/xform_utils.py:280-281 | Python list indexing with an index in [-3, 3) picks position i or i + 3 of a three-element list |
| `XformUtils.AxisType` | source/pyHelloWorld/xform_utils.py:278 | axis 0, 1, 2 maps to the single-axis rotate type whose token is rotateX, rotateY, rotateZ |
| `XformUtils.RotationOrderType` | source/pyHelloWorld/xform_utils.py:92-107 | a permutation of (0, 1, 2) maps to the three-axis rotate type whose token spells its axes in order; any other vector maps to the default |
| `XformUtils.RotationOrderTypeInjective` | source/pyHelloWorld/xform_utils.py:99-106 | the six permutations map to six different rotate types |
| `XformUtils.PyRoundExactIffIntegral` | source/pyHelloWorld/xform_utils.py:151 | `round(v) == v` exactly when v is integral (ties to even included) |
| `XformUtils.HasTimeSample` | source/pyHelloWorld/xform_utils.py:146-159 | false at the default time and at non-integral times; otherwise true exactly when the time is among the op's samples |
| `XformUtils.FindOrAddPlan` | source/pyHelloWorld/xform_utils.py:222-248 | with creation on an op is always returned, and every returned op has the requested type and satisfies the suffix rule |
| `XformUtils.FindOrAddPlanFirstMatch` | source/pyHelloWorld/xform_utils.py:228-248 | the first matching op of the stack is returned with the stack untouched; with no match, None and the stack untouched when creation is off, else exactly one new op appended and returned |
| `XformUtils.FindOrAddIdempotent` | source/pyHelloWorld/xform_utils.py:222-248 | a second lookup with the same arguments finds the op the first returned and adds nothing |
| `XformUtils.FirstRotateTypeIsRotation` | source/pyHelloWorld/xform_utils.py:250-261 | the first rotate type is always a rotation; with no rotate op on the stack it is the rotation-order type, or Orient when the order is no permutation, at double precision |
| `XformUtils.FirstRotateTypeAfterTranslate` | source/pyHelloWorld/xform_utils.py:250-254 | appending a translate op does not change the first rotate type |
| `XformUtils.SingleAxisPlanNext` | source/pyHelloWorld/xform_utils.py:279-283 | each round of the single-axis loop looks up the axis op for rotation-order position 2 - n and appends it with that axis's Euler angle |
| `XformUtils.RotatePlanOneOp` | source/pyHelloWorld/xform_utils.py:285-307 | in the three-axis and Orient branches the rotation part is the one op found or added for the first rotate type, with the Euler vector or the composed rotation |
| `XformUtils.RotatePlanThreeAxis` | source/pyHelloWorld/xform_utils.py:285-296 | the three-axis branch writes the Euler vector to the op found or added for the type |
| `XformUtils.RotatePlanOrient` | source/pyHelloWorld/xform_utils.py:298-307 | the Orient branch writes the rotation composed in rotation order to the Orient op |
| `XformUtils.RotatePlanCases` | source/pyHelloWorld/xform_utils.py:275-309 | a single-axis type plans the three axis ops; a type that is no rotation plans nothing and leaves the stack alone |
| `XformUtils.SingleAxisPlanStep` | source/pyHelloWorld/xform_utils.py:279-283 | each round appends exactly one entry and keeps the earlier ones |
| `XformUtils.SingleAxisPlanShape` | source/pyHelloWorld/xform_utils.py:275-283 | after n rounds the list has n entries, and entry k is the rotate op of the axis at rotation-order position 2 - k, carrying that axis's angle |
| `XformUtils.RotatePlanSingleAxis` | source/pyHelloWorld/xform_utils.py:275-283 | in the single-axis case the rotation part holds three rotate ops, in the reverse of the rotation order |
| `XformUtils.RotatePlanSingleOp` | source/pyHelloWorld/xform_utils.py:285-307 | otherwise it holds exactly one op, of the first rotate type |
| `XformUtils.SrtPlanShape` | source/pyHelloWorld/xform_utils.py:263-314 | the op/value list is a translate op with the translation, then a non-empty rotation part, then a scale op with the scale |
| `XformUtils.RotatePlanNonEmpty` | source/pyHelloWorld/xform_utils.py:273-309 | for every rotation type the rotation part is non-empty |
| `XformUtils.WriteAllUntouched` | source/pyHelloWorld/xform_utils.py:331-333 | an op not in the list keeps its value or its absence |
| `XformUtils.WriteAllLast` | source/pyHelloWorld/xform_utils.py:331-333 | an op in the list holds the value of its last write |
| `XformUtils.IndexOf` | source/pyHelloWorld/xform_utils.py:349 | list.index returns the first occurrence |
| `XformUtils.RemoveFirstAt` | source/pyHelloWorld/xform_utils.py:349 | `pop(index(x))` removes exactly the first occurrence of x |
| `XformUtils.RemoveFirstMultiset` | source/pyHelloWorld/xform_utils.py:349 | it removes one copy of x and nothing else |
| `XformUtils.RemoveFirstOther` | source/pyHelloWorld/xform_utils.py:348-349 | other elements stay in the list |
| `XformUtils.MergeOrderPermutation` | source/pyHelloWorld/xform_utils.py:346-350 | the new order holds exactly the ops just set (pivot included), each as often as in the list: a permutation of it |
| `XformUtils.MergeOrderDistinct` | source/pyHelloWorld/xform_utils.py:346-350 | with duplicate-free stack and list, the new order is the stack ops in the list, in stack order, followed by the list ops not on the stack, in list order; other stack ops are dropped |
| `XformUtils.MergeXformOrder` | source/pyHelloWorld/xform_utils.py:346-350 | the merge loop computes that order |
| `XformUtils.SrtOrderHoldsSetOps` | source/pyHelloWorld/xform_utils.py:329-350 | the new order is a permutation of the set ops plus the pivot when one exists, and every written op receives its value |
| `XformUtils.MatrixPathKeepsOnlyMatrix` | source/pyHelloWorld/xform_utils.py:198-220 | with a matrix op on the stack the order becomes a single matrix op taken from the stack, and that op receives the composed matrix |
| `XformUtils.TransformPrimSRT.Create` | source/pyHelloWorld/xform_utils.py:51-75 | the constructor raises exactly when the prim path names no prim, and otherwise keeps the transform arguments |
| `XformUtils.TransformPrimSRT.FindOrAdd` | source/pyHelloWorld/xform_utils.py:222-248 | `_find_or_add` returns and leaves on the prim what FindOrAddPlan says |
| `XformUtils.TransformPrimSRT.FirstRotateType` | source/pyHelloWorld/xform_utils.py:250-261 | `_get_first_rotate_type` returns the first op in the rotate range, else the fallback |
| `XformUtils.TransformPrimSRT.AddSingleAxisOps` | source/pyHelloWorld/xform_utils.py:275-283 | the single-axis loop builds SingleAxisPlan over three rounds |
| `XformUtils.TransformPrimSRT.AddAxisOp` | source/pyHelloWorld/xform_utils.py:279-283 | one round: the op for position i found or added, with that axis's angle |
| `XformUtils.TransformPrimSRT.AddRotateOps` | source/pyHelloWorld/xform_utils.py:273-309 | the rotation branches build RotatePlan |
| `XformUtils.TransformPrimSRT.AddOneRotateOp` | source/pyHelloWorld/xform_utils.py:285-307 | the three-axis and Orient branches |
| `XformUtils.TransformPrimSRT.GetSrtXformOpValues` | source/pyHelloWorld/xform_utils.py:263-314 | `_get_srt_xform_op_values` returns SrtPlan's list and leaves its stack, without changing any value |
| `XformUtils.TransformPrimSRT.WriteValues` | source/pyHelloWorld/xform_utils.py:329-334 | the value loop sets each op of the list in turn and collects the ops |
| `XformUtils.TransformPrimSRT.SetTransformAsSrt` | source/pyHelloWorld/xform_utils.py:316-352 | the stack and values become SrtOutcome of the old ones |
| `XformUtils.TransformPrimSRT.SetTransformAsMatrix` | source/pyHelloWorld/xform_utils.py:208-220 | the order becomes `[op]` and only that op's value changes, to the composed matrix |
| `XformUtils.TransformPrimSRT.SetTransform` | source/pyHelloWorld/xform_utils.py:198-206 | the first matrix op selects the matrix path, else the SRT path |
| `XformUtils.SumsTranslateAdditive` | source/pyHelloWorld/xform_utils.py:419-428 | when reading succeeds, the translation read back is the start plus the sum of every translate op's vector and every matrix op's translation |
| `XformUtils.SumsNoneStays` | source/pyHelloWorld/xform_utils.py:419-433 | once reading one op's value raises, the whole read raises |
| `XformUtils.SumsKeepScale` | source/pyHelloWorld/xform_utils.py:419-433 | without scale and matrix ops the scale sum is never touched |
| `XformUtils.GetSrtXformFromPrim` | source/pyHelloWorld/xform_utils.py:400-438 | the accumulation loop returns SrtFromPrim of the prim's stack and values |
| `XformUtils.AccumulateOp` | source/pyHelloWorld/xform_utils.py:419-433 | one op of the loop: matrix, orient, translate, rotateXYZ and scale ops add their parts, other ops add nothing; a missing value, or a translate / rotate / scale value that is no vector, raises |
| `XformUtils.DefaultScaleWithoutScaleOps` | source/pyHelloWorld/xform_utils.py:435-436 | with no scale or matrix op on the stack the default scale is returned |
| `HelloWorldCpp.EnablePhysics` | source/helloWorld/helloWorld.cpp:329-354 | collision always; rigid body exactly when dynamic; mesh collision exactly for meshes, with convexHull exactly when dynamic and none otherwise |
| `HelloWorldCpp.CheckpointFile` | source/helloWorld/helloWorld.cpp:268-296 | a checkpoint exactly when live mode is off, the server call succeeded with info, and the info reports checkpoints enabled |
| `HelloWorldCpp.UrlNotice` | source/helloWorld/helloWorld.cpp:935-940 | a warning, naming the printed path, exactly when the URL is not an Omniverse URL |
| `HelloWorldCpp.ParseHelpStep` | source/helloWorld/helloWorld.cpp:917-921 | -h / --help ends parsing with the help outcome |
| `HelloWorldCpp.ParseLiveStep` | source/helloWorld/helloWorld.cpp:922-925 | -l / --live sets live mode and goes on |
| `HelloWorldCpp.ParsePathStep` | source/helloWorld/helloWorld.cpp:926-941 | -p last is a missing value; otherwise the next argument becomes the destination, with a warning if it is not an Omniverse URL, and parsing goes on after it |
| `HelloWorldCpp.ParseVerboseStep` | source/helloWorld/helloWorld.cpp:942-945 | -v / --verbose turns logging on and goes on |
| `HelloWorldCpp.ParseExistingStep` | source/helloWorld/helloWorld.cpp:946-962 | -e last is a missing value (live mode set first); otherwise live mode on, the next argument the existing stage, and a warning naming the destination path if it is invalid |
| `HelloWorldCpp.ParseOtherStep` | source/helloWorld/helloWorld.cpp:963-966 | an unrecognised argument adds a notice and parsing goes on |
| `HelloWorldCpp.ParseArgs` | source/helloWorld/helloWorld.cpp:915-967 | the `for` loop over argv[1..] computes ParseTokens |
| `HelloWorldCpp.ParseArg` | source/helloWorld/helloWorld.cpp:917-966 | one turn of the loop advances the position and either stops with the loop's outcome or continues with it |
| `HelloWorldCpp.ParseTokensAppend` | source/helloWorld/helloWorld.cpp:915-967 | parsing is compositional: a prefix that stops decides the outcome, and a prefix that proceeds hands its options on to the rest |
| `HelloWorldCpp.HelpIgnoresTheRest` | source/helloWorld/helloWorld.cpp:917-921 | -h returns 0 whatever follows it |
| `HelloWorldCpp.TrailingValueFlagIsMissing` | source/helloWorld/helloWorld.cpp:928-933 | -p, --path, -e or --existing as the last argument returns -1 |
| `HelloWorldCpp.FlagEffect` | source/helloWorld/helloWorld.cpp:922-962 | in the middle of a command line -l sets live, -v sets logging, -p X sets the destination to X, and -e X sets live and the stage to X |
| `HelloWorldCpp.ParseTokensMonotone` | source/helloWorld/helloWorld.cpp:915-967 | parsing never turns live mode or logging off, changes the stage only together with live mode, and keeps earlier notices as a prefix |
| `HelloWorldCpp.ExistingStageMeansLive` | source/helloWorld/helloWorld.cpp:948 | naming an existing stage always asks for a live session |
| `HelloWorldCpp.HelloWorldMain` | source/helloWorld/helloWorld.cpp:970-1034 | Omniverse starts exactly when parsing proceeds; the live edit runs only on a started session in live mode with a mesh |
| `HelloWorldCpp.MainStopsEarly` | source/helloWorld/helloWorld.cpp:915-971 | -h anywhere the loop reaches returns 0 without starting Omniverse, and a trailing -p / -e returns -1 without starting it |
| `HelloWorldCpp.CreateBox` | source/helloWorld/helloWorld.cpp:433-519 | no mesh exactly when Define fails; otherwise the prim `/box_<n>` under the root, with the box tables, a translate (0, 100, 0) and a rotateXYZ (20, 0, 20) op, and dynamic mesh physics |
| `HelloWorldCpp.MoveItUp` | source/helloWorld/helloWorld.cpp:508-510 | the two ops createBox adds, with their values |
| `HelloWorldCpp.FindGeomMesh` | source/helloWorld/helloWorld.cpp:523-561 | no mesh when the stage does not open, else the first mesh of the traversal |
| `HelloWorldCpp.FirstMeshIsFirst` | source/helloWorld/helloWorld.cpp:544-560 | the mesh found is a mesh of the traversal with no mesh before it, and none is found exactly when the traversal has no mesh |
| `HelloWorldCpp.NextAngleWraps` | source/helloWorld/helloWorld.cpp:779-781 | on a multiple of 15 in [0, 360) the update is +15 modulo 360 and stays such an angle |
| `HelloWorldCpp.LastOfType` | source/helloWorld/helloWorld.cpp:802-818 | the index of the last op of a type, or None exactly when the stack has none |
| `HelloWorldCpp.ScanFindsLastOfEachType` | source/helloWorld/helloWorld.cpp:802-818 | the scan keeps the last translate, rotateXYZ and scale op of the stack |
| `HelloWorldCpp.ChosenOpsTyped` | source/helloWorld/helloWorld.cpp:828-835 | each SetOp receives an op of its own type, or none |
| `HelloWorldCpp.MoveBoxOrder` | source/helloWorld/helloWorld.cpp:852-856 | after a 't' the op order is exactly a translate, a rotateXYZ and a scale op, reusing the last op of each type the stack had |
| `HelloWorldCpp.MoveBoxValues` | source/helloWorld/helloWorld.cpp:821-849 | the translate holds the old position moved on the circle, the rotation changes only its Y component to the angle, the scale op gets the scale read back, and every op outside the new order keeps its value |
| `HelloWorldCpp.MoveBoxStable` | source/helloWorld/helloWorld.cpp:776-860 | a second 't' reuses the three ops the first one left: the order no longer changes |
| `HelloWorldCpp.KeyT` | source/helloWorld/helloWorld.cpp:776-860 | a 't' advances the angle and moves the box |
| `HelloWorldCpp.UntilQuit` | source/helloWorld/helloWorld.cpp:864-868 | the keys read before the first 'q' or escape contain no quit key |
| `HelloWorldCpp.RunKeysAngle` | source/helloWorld/helloWorld.cpp:764-870 | the angle after a session is 15 times the number of 't' keys before the first quit key, modulo 360, and is always a multiple of 15 in [0, 360) |
| `HelloWorldCpp.AngleAfterCount` | source/helloWorld/helloWorld.cpp:779-781 | the same count formula, on the angle alone |
| `HelloWorldCpp.AngleAfterValid` | source/helloWorld/helloWorld.cpp:779-781 | the angle stays a multiple of 15 in [0, 360) |
| `HelloWorldCpp.QuitEndsSession` | source/helloWorld/helloWorld.cpp:864-868 | 'q' or escape ends the session: nothing after it is read |
| `HelloWorldCpp.OtherKeyChangesNothing` | source/helloWorld/helloWorld.cpp:775-869 | a key other than 't', 'q' and escape changes neither the angle nor the box |
| `HelloWorldCpp.ScanOps` | source/helloWorld/helloWorld.cpp:802-818 | the scan loop computes Scan |
| `HelloWorldCpp.SetOp` | source/helloWorld/helloWorld.cpp:828-844 | SetOp adds the op when the scan found none, then sets it: one op appended at most, one value changed |
| `HelloWorldCpp.MoveBoxStep` | source/helloWorld/helloWorld.cpp:783-860 | the body of `case 't'` leaves the stack and values MoveBox gives |
| `HelloWorldCpp.LiveEdit` | source/helloWorld/helloWorld.cpp:752-871 | the `while (wait)` loop from angle 0 leaves the session RunKeys gives |
| `HelloWorldPy.ValidityAgainstCpp` | source/pyHelloWorld/helloWorld.py:82-86 | the Python test is the C++ test without the host and path checks |
| `HelloWorldPy.SchemeOnlyUrlAcceptedOnlyByPython` | source/pyHelloWorld/helloWorld.py:84 | a URL with only an `omni` scheme passes the Python test and fails the C++ one |
| `HelloWorldPy.CheckpointFile` | source/pyHelloWorld/helloWorld.py:107-116 | a checkpoint exactly when live mode is off, the result is truthy and the info reports checkpoints enabled |
| `HelloWorldPy.CheckpointAgreesWithCpp` | source/pyHelloWorld/helloWorld.py:107-116 | when the result is truthy exactly when it is ok, both samples make the same decision |
| `HelloWorldPy.EnablePhysics` | source/pyHelloWorld/helloWorld.py:138-154 | collision always, and a rigid body exactly when dynamic |
| `HelloWorldPy.PhysicsAgreesWithCpp` | source/pyHelloWorld/helloWorld.py:138-154 | both samples apply the same APIs to every prim |
| `HelloWorldPy.LiveEditMode` | source/pyHelloWorld/helloWorld.py:484 | live mode exactly when --live is set or --existing is non-empty |
| `HelloWorldPy.EmptyExistingDiffersFromCpp` | source/pyHelloWorld/helloWorld.py:484 | an empty --existing leaves the Python sample out of live mode, while the C++ `-e ""` switches it on |
| `HelloWorldPy.Warnings` | source/pyHelloWorld/helloWorld.py:490-500 | a destination warning exactly for a non-empty invalid path, an existing-stage warning exactly for a truthy invalid stage, and no other warnings |
| `HelloWorldPy.CreateBox` | source/pyHelloWorld/helloWorld.py:249-280 | exit exactly when Define fails; otherwise `/box_<n>` with the box tables, the translate / rotateXYZ / scale stack TransformPrimSRT leaves, and dynamic mesh physics |
| `HelloWorldPy.BoxMeshAgreesWithCpp` | source/pyHelloWorld/helloWorld.py:217-242 | the Python tables are the C++ tables |
| `HelloWorldPy.MergeOrderSame` | source/pyHelloWorld/xform_utils.py:346-350 | merging a stack with itself leaves it as it is |
| `HelloWorldPy.FindOrAddNoMatch` | source/pyHelloWorld/xform_utils.py:235-248 | with no matching op, a new op appended or nothing |
| `HelloWorldPy.FindOrAddFindsAt` | source/pyHelloWorld/xform_utils.py:228-233 | the first op of the type that matches is returned, stack untouched |
| `HelloWorldPy.TranslateIsNoPivot` | source/pyHelloWorld/xform_utils.py:338-340 | an unsuffixed translate op is never taken for the pivot |
| `HelloWorldPy.TranslateOnEmpty` | source/pyHelloWorld/xform_utils.py:268 | on an empty stack the translate lookup adds a new translate op |
| `HelloWorldPy.RotateAfterTranslate` | source/pyHelloWorld/xform_utils.py:255-296 | after only a translate op, order (0, 1, 2) gives rotateXYZ and the rotation part adds one rotateXYZ op |
| `HelloWorldPy.FirstRotateTypeOfTranslate` | source/pyHelloWorld/xform_utils.py:255-261 | after only a translate op, order (0, 1, 2) gives rotateXYZ at double precision |
| `HelloWorldPy.RotateXyzAfterTranslate` | source/pyHelloWorld/xform_utils.py:285-296 | the rotateXYZ branch then appends one new rotateXYZ op carrying the Euler vector |
| `HelloWorldPy.ScaleAfterRotate` | source/pyHelloWorld/xform_utils.py:311 | after a translate and a rotateXYZ op the scale lookup adds a new scale op |
| `HelloWorldPy.SrtPlanOfThreeLookups` | source/pyHelloWorld/xform_utils.py:263-314 | the list from three lookups that each add an op |
| `HelloWorldPy.SrtPlanOnEmpty` | source/pyHelloWorld/xform_utils.py:263-314 | on an empty stack with order (0, 1, 2): translate, rotateXYZ and scale ops with the three vectors |
| `HelloWorldPy.SrtKeepsPlanStack` | source/pyHelloWorld/xform_utils.py:316-352 | a list naming every op of its stack once, with no pivot, keeps that stack as the order |
| `HelloWorldPy.SrtOnEmptyPrim` | source/pyHelloWorld/xform_utils.py:198-206 | set_transform on a prim with no ops leaves translate, rotateXYZ, scale with the three vectors |
| `HelloWorldPy.PyBoxTransform` | source/pyHelloWorld/helloWorld.py:267-273 | the box's TransformPrimSRT leaves translate (0, 100, 0), rotateXYZ (20, 0, 20) and scale (1, 1, 1) |
| `HelloWorldPy.BoxTransformAgainstCpp` | source/pyHelloWorld/helloWorld.py:267-273 | the Python box has the C++ box's two ops and values plus a unit scale op |
| `HelloWorldPy.PyBoxIsBoxLike` | source/pyHelloWorld/helloWorld.py:267-273 | the box createBox leaves is a box-like stack |
| `HelloWorldPy.StageUrl` | source/pyHelloWorld/helloWorld.py:93 | the stage URL starts with the destination and ends with `/helloworld_py.usd` |
| `HelloWorldPy.SysExit` | source/pyHelloWorld/helloWorld.py:296 | sys.exit exits with its message for one argument and raises TypeError for more |
| `HelloWorldPy.NoMeshEndAsWritten` | source/pyHelloWorld/helloWorld.py:296 | the no-mesh exit as written raises TypeError |
| `HelloWorldPy.NoMeshEnd` | source/pyHelloWorld/helloWorld.py:296 | the intended no-mesh exit: a message that starts with the error text and ends with the stage URL |
| `HelloWorldPy.NoMeshRaisesTypeError` | source/pyHelloWorld/helloWorld.py:296 | on a stage without a mesh the code raises TypeError where an exit message was meant |
| `HelloWorldPy.FindGeomMesh` | source/pyHelloWorld/helloWorld.py:282-297 | the traversal loop: exit when the stage does not open, the first mesh, or the no-mesh exit |
| `HelloWorldPy.FindGeomMeshAgreesWithCpp` | source/pyHelloWorld/helloWorld.py:282-297 | it finds the mesh the C++ search finds, and ends the program exactly where the C++ search returns no mesh |
| `HelloWorldPy.PyMain` | source/pyHelloWorld/helloWorld.py:472-563 | the program returns normally exactly when the client initialises and either the existing stage has a mesh or the box, the dynamic cube and the quad are all defined; a failed cube or quad Define ends with the "Failure to create cube" exit that both createDynamicCube and createQuad use (helloWorld.py:163-164, 184-185); it runs the live edit exactly then in live mode; it creates a stage exactly when initialised without a truthy --existing; every early end is an exit, with the no-mesh end taken in its corrected form `HelloWorldPy.NoMeshEnd` (see Findings: as written it raises TypeError) |
| `HelloWorldPy.PyMainLiveEditPrim` | source/pyHelloWorld/helloWorld.py:555-561 | the "Unable to create or find mesh" exit is never reached: the live edit runs on the first mesh of the existing stage, or else on `/Root/box_0`, and a normal return logged exactly the URL warnings |
| `HelloWorldPy.PyNextAngleAgreesWithCpp` | source/pyHelloWorld/helloWorld.py:439 | `(angle + 15) % 360` equals the C++ update on every session angle and keeps it valid |
| `HelloWorldPy.LiveOrderDefined` | source/pyHelloWorld/helloWorld.py:460 | order (0, 1, 2) makes set_transform well defined on any stack |
| `HelloWorldPy.PyKeyT` | source/pyHelloWorld/helloWorld.py:438-464 | a 't' raises exactly when reading the transform back raises, and a raised session keeps its stack and values |
| `HelloWorldPy.RunLiveKeysAngle` | source/pyHelloWorld/helloWorld.py:435-470 | the angle stays a multiple of 15 in [0, 360), and when the session does not raise it is 15 times the 't' count before the first quit key, modulo 360 |
| `HelloWorldPy.PyQuitEndsSession` | source/pyHelloWorld/helloWorld.py:466-468 | 'q' or escape ends the loop: nothing after it is read |
| `HelloWorldPy.PyOtherKeyChangesNothing` | source/pyHelloWorld/helloWorld.py:469-470 | any other non-'t' key changes neither the angle nor the transform |
| `HelloWorldPy.LiveMove` | source/pyHelloWorld/helloWorld.py:438-464 | the loop body for 't' leaves the state PyKeyT gives |
| `HelloWorldPy.RunLiveEdit` | source/pyHelloWorld/helloWorld.py:429-470 | the `while True` loop from angle 0 leaves the state RunLiveKeys gives |
| `HelloWorldPy.SrtFromBoxLikeStack` | source/pyHelloWorld/xform_utils.py:400-438 | reading a box-like stack back gives its three vectors |
| `HelloWorldPy.SrtPlanOfFoundLookups` | source/pyHelloWorld/xform_utils.py:263-314 | the list from three lookups that each find an op |
| `HelloWorldPy.SrtPlanOnBoxLikeStack` | source/pyHelloWorld/xform_utils.py:263-314 | on a box-like stack the list reuses its three ops |
| `HelloWorldPy.SrtPlanOnTypedStack` | source/pyHelloWorld/xform_utils.py:263-314 | the same on any stack of an unsuffixed translate, rotateXYZ and scale op |
| `HelloWorldPy.FirstRotateOnTypedStack` | source/pyHelloWorld/xform_utils.py:250-254 | on such a stack the first rotate type is the rotateXYZ op's type and precision |
| `HelloWorldPy.SetTransformOnBoxLikeStack` | source/pyHelloWorld/xform_utils.py:316-352 | set_transform on a box-like stack keeps the stack and writes the three vectors |
| `HelloWorldPy.CppMoveOnBoxLikeStack` | source/helloWorld/helloWorld.cpp:802-856 | the C++ 't' step on a box-like stack reuses the same three ops |
| `HelloWorldPy.PyMoveAgreesWithCpp` | source/pyHelloWorld/helloWorld.py:438-464 | one 't' on a box-like stack does in Python what it does in C++, and keeps the stack box-like |
| `HelloWorldPy.PySessionAgreesWithCpp` | source/pyHelloWorld/helloWorld.py:435-470 | a whole Python session from a box-like stack never raises and ends with the stack, values and angle of the C++ session on the same keys |
| `SimpleSensor.CRemCQuot` | source/omniSimpleSensor/omniSimpleSensor.cpp:258-261 | on non-negative operands C++ `/` and `%` are the Euclidean quotient and remainder |
| `SimpleSensor.FloorCbrt` | source/omniSimpleSensor/omniSimpleSensor.cpp:255 | r³ <= n < (r + 1)³ |
| `SimpleSensor.FloorCbrtUnique` | source/omniSimpleSensor/omniSimpleSensor.cpp:255 | that root is unique |
| `SimpleSensor.ZoneSize` | source/omniSimpleSensor/omniSimpleSensor.cpp:255-257 | at least 1, the floor cube root when the total is at least 1, and 1 below 8 |
| `SimpleSensor.ZoneDigits` | source/omniSimpleSensor/omniSimpleSensor.cpp:258-261 | the three coordinates are the mixed-radix digits of the zone: zone = x + s·y + s²·z with x, y < s |
| `SimpleSensor.OffsetRanges` | source/omniSimpleSensor/omniSimpleSensor.cpp:258-261 | the offsets are multiples of 150; x and y lie in [0, (s - 1)·150], z is at least 0 |
| `SimpleSensor.ZOffsetMonotone` | source/omniSimpleSensor/omniSimpleSensor.cpp:261 | a higher zone number never sits lower |
| `SimpleSensor.OffsetsInjective` | source/omniSimpleSensor/omniSimpleSensor.cpp:258-261 | two non-negative zones share an offset triple exactly when they are equal |
| `SimpleSensor.ZOffsetBelowCube` | source/omniSimpleSensor/omniSimpleSensor.cpp:261 | the zones below s³ lie inside the s × s × s grid |
| `SimpleSensor.ZonePrimsDistinct` | source/omniSimpleSensor/omniSimpleSensor.cpp:239-241 | distinct zones get distinct prim names and offsets, and the first point of a zone's mesh is the base point moved by its offset |
| `SimpleSensor.CreateZoneGeometry` | source/omniSimpleSensor/omniSimpleSensor.cpp:233-325 | the prim `/World/box_<zone>`, with no attributes when Define fails and otherwise the box moved to the zone's cell |
| `SimpleSensor.SimpleSensorSpec` | source/omniSimpleSensor/omniSimpleSensor.cpp:328-397 | exit 0 exactly with three arguments and a stage; then atoi(argv[2]) zones (none when that is not positive); otherwise exit 1 and no zones |
| `SimpleSensor.SimpleSensorZones` | source/omniSimpleSensor/omniSimpleSensor.cpp:376-380 | zone i of a run is `/World/box_<i>`, laid out for the full count |
| `SimpleSensor.SimpleSensorMain` | source/omniSimpleSensor/omniSimpleSensor.cpp:376-380 | the zone loop computes SimpleSensorSpec |
| `SensorThread.TickWraps` | source/omniSensorThread/omniSensorThread.cpp:252-254 | from a step in [0, 360) one round gives (step + 1) mod 360, still in range |
| `SensorThread.StepAfterMod` | source/omniSensorThread/omniSensorThread.cpp:224-256 | after n rounds the step is (step + n) mod 360 |
| `SensorThread.DataStageWriterWorker.constructor` | source/omniSensorThread/omniSensorThread.cpp:222 | a new worker is not stopped, has variance 1.0, step 0 and run limit -1 |
| `SensorThread.DataStageWriterWorker.DoWork` | source/omniSensorThread/omniSensorThread.cpp:223-256 | a stopped worker changes nothing; otherwise n rounds advance the step n times, write n colours from the variance before each round, and leave variance = cos(step) |
| `SensorThread.DoWorkKeepsStepValid` | source/omniSensorThread/omniSensorThread.cpp:252-255 | the step stays in [0, 360) through any number of rounds |
| `SensorThread.OpenOmniverseModel` | source/omniSensorThread/omniSensorThread.cpp:179-196 | the URL itself or the empty string |
| `SensorThread.OpenFailsIffEmpty` | source/omniSensorThread/omniSensorThread.cpp:302 | main's empty-string test fails exactly when the stage does not open |
| `SensorThread.AttachPath` | source/omniSensorThread/omniSensorThread.cpp:199-211 | the path starts with `/World/box_` |
| `SensorThread.AttachFindsSimpleSensorZone` | source/omniSensorThread/omniSensorThread.cpp:201 | thread t attaches to the prim the simple-sensor sample created for zone t |
| `SensorThread.WaitRounds` | source/omniSensorThread/omniSensorThread.cpp:324-335 | the wait takes at most the readings given, and never ends with timeout -1 |
| `SensorThread.WaitRoundsFirstReached` | source/omniSensorThread/omniSensorThread.cpp:326-335 | the wait ends exactly at the first reading that reaches the timeout |
| `SensorThread.SensorThreadMain` | source/omniSensorThread/omniSensorThread.cpp:268-349 | -1 without three arguments; 1 exactly when the stage does not open; otherwise the worker is attached to `/World/box_<atoi(argv[2])>` with run limit atoi(argv[3]), and it is stopped exactly when the wait ends; the worker's step stays in [0, 360) |
| `SensorThread.WaitLoop` | source/omniSensorThread/omniSensorThread.cpp:324-335 | the wait loop computes WaitRounds |
| `SensorThread.WaitBounds` | source/omniSensorThread/omniSensorThread.cpp:326 | with timeout -1 the wait never ends; with any other timeout of 0 or less it ends before the first reading |
| `FindBuildTools.PathJoin` | tools/repoman/findwindowsbuildtools.py:36 | a rooted component replaces the path; otherwise the result starts with the path and ends with the component |
| `FindBuildTools.JoinAllNonEmpty` | tools/repoman/findwindowsbuildtools.py:36 | a join onto a non-empty path is never empty |
| `FindBuildTools.JoinAllKeepsBase` | tools/repoman/findwindowsbuildtools.py:36 | without rooted components the join starts with its base |
| `FindBuildTools.VcPath` | tools/repoman/findwindowsbuildtools.py:36 | the MSVC tools path is never empty |
| `FindBuildTools.VcPathShape` | tools/repoman/findwindowsbuildtools.py:36 | for a relative version it starts at ".." and ends in the version |
| `FindBuildTools.SplitOn` | tools/repoman/findwindowsbuildtools.py:55 | str.split gives one more piece than separators, and no piece holds the separator |
| `FindBuildTools.JoinSplit` | tools/repoman/findwindowsbuildtools.py:55 | joining the pieces gives the line back |
| `FindBuildTools.SdkField` | tools/repoman/findwindowsbuildtools.py:55-57 | `line.split("=")[1].rstrip("\\")`; the index raises exactly when the line has no '=' |
| `FindBuildTools.LineKey` | tools/repoman/findwindowsbuildtools.py:54-56 | a line containing WindowsSDKDir sets the directory; otherwise a line containing WindowsSdkVersion sets the version |
| `FindBuildTools.ParseEnvLines` | tools/repoman/findwindowsbuildtools.py:53-57 | the line loop computes EnvAfter |
| `FindBuildTools.EnvErrorSticks` | tools/repoman/findwindowsbuildtools.py:53-57 | once a line raises, the read raises |
| `FindBuildTools.EnvErrorIff` | tools/repoman/findwindowsbuildtools.py:53-57 | the read raises exactly when some line naming a variable has no '=' |
| `FindBuildTools.EnvUnsetStaysEmpty` | tools/repoman/findwindowsbuildtools.py:39-40 | a variable no line names stays "" |
| `FindBuildTools.EnvLastSetterWins` | tools/repoman/findwindowsbuildtools.py:53-57 | a variable holds the field of the last line naming it |
| `FindBuildTools.EnvLastLineWins` | tools/repoman/findwindowsbuildtools.py:53-57 | later lines overwrite earlier ones, and an unnamed variable stays "" |
| `FindBuildTools.SdkDirsDistinct` | tools/repoman/findwindowsbuildtools.py:59-62 | with an existing SDK directory the bin, include and lib directories are join(dir, sub, ver): they start with the directory, end with the version and differ from one another |
| `FindBuildTools.FindReplaceKeysDistinct` | tools/repoman/findwindowsbuildtools.py:69-76 | the table has the six keys in order, each once, with the Visual Studio and MSVC paths first |
| `FindBuildTools.WithSourcePaths` | tools/repoman/findwindowsbuildtools.py:80-81 | every source path of the dependency is set to the value, and nothing else changes |
| `FindBuildTools.ReplaceAllDistinct` | tools/repoman/findwindowsbuildtools.py:77-82 | a dependency named by a key with a non-empty value gets that value on every source; any other is left as it is |
| `FindBuildTools.ReplaceAllKeepsName` | tools/repoman/findwindowsbuildtools.py:77-82 | the name and the number of sources never change |
| `FindBuildTools.HostDeps.SetSourcePaths` | tools/repoman/findwindowsbuildtools.py:80-81 | the source loop rewrites dependency i only |
| `FindBuildTools.HostDeps.UpdateDependency` | tools/repoman/findwindowsbuildtools.py:78-82 | the key loop applies the whole table to dependency i only |
| `FindBuildTools.HostDeps.FindReplace` | tools/repoman/findwindowsbuildtools.py:77-82 | the dependency loop applies the table to every dependency |
| `FindBuildTools.HostDepsTable` | tools/repoman/findwindowsbuildtools.py:23-84 | when reading the batch output does not raise, a table of the six keys with the Visual Studio and MSVC paths |
| `FindBuildTools.NoBatchFileNoSdk` | tools/repoman/findwindowsbuildtools.py:45-46 | without winsdk.bat the update cannot fail, and the SDK entries are all empty |
| `FindBuildTools.NoSdkDirLineNoSdk` | tools/repoman/findwindowsbuildtools.py:53-62 | when no output line names WindowsSDKDir the SDK directory stays "", which never exists, so all four SDK entries of the table are empty |
| `FindBuildTools.EmptySdkEntries` | tools/repoman/findwindowsbuildtools.py:72-75 | empty SDK variables give empty SDK values in the table |
| `FindBuildTools.UpdateHostDeps` | tools/repoman/findwindowsbuildtools.py:23-84 | the tree is rewritten by the table exactly when the table exists, and left unchanged otherwise |
| `FindBuildTools.UpdateTargets` | tools/repoman/findwindowsbuildtools.py:69-82 | a "vc" dependency gets the MSVC path, and a "buildtools" one the Visual Studio path when it is non-empty |
| `FindBuildTools.OtherDependenciesUnchanged` | tools/repoman/findwindowsbuildtools.py:77-82 | a dependency whose name is no key is never touched |
| `FindBuildTools.FindVsSpec` | tools/repoman/findwindowsbuildtools.py:96-127 | None without a Program Files (x86) directory |
| `FindBuildTools.FindVsSelects` | tools/repoman/findwindowsbuildtools.py:119-127 | once vswhere is found: when listing, the last entry's path (None for none); when searching, the path of the first entry whose name contains the search string, None exactly when no name does |
| `FindBuildTools.FindVs` | tools/repoman/findwindowsbuildtools.py:119-127 | the vswhere loop computes FindVsSpec |
| `FindBuildTools.SearchSpec` | tools/repoman/findwindowsbuildtools.py:124-125 | the search returns the first matching entry's path |
| `FindBuildTools.ListSpec` | tools/repoman/findwindowsbuildtools.py:121-123 | listing returns the last entry's path |
| `FindBuildTools.FindMsvcVer` | tools/repoman/findwindowsbuildtools.py:135-147 | a version exactly when the MSVC folder exists and is non-empty, and then the first entry the folder listing gives |
| `FindBuildTools.RunCommand` | tools/repoman/findwindowsbuildtools.py:170-187 | exit 1 exactly when no Visual Studio is found or update_host_deps raises, else exit 0; it raises, uncaught, exactly when the batch output of an existing winsdk.bat does not decode, a line of it naming an SDK variable has no '=', or the host-deps file does not parse; update_host_deps is called exactly when not listing and the host-deps path, Visual Studio path and MSVC version are all truthy, with those three, the version being find_msvc_ver's |
| `FindBuildTools.UpdateRaisesIff` | tools/repoman/findwindowsbuildtools.py:45-57 | reading winsdk.bat's output in update_host_deps raises exactly when the file exists and a line of its output naming an SDK variable has no '=' |
| `FindBuildTools.ListAllNeverUpdates` | tools/repoman/findwindowsbuildtools.py:173-178 | listing never rewrites the host-deps file, and a listing with no installation exits with 1 |

## Left out

- All Omniverse Client and USD calls are left out: connection, initialise, stage create/open/save, live process/wait, delete, copy, create folder, checkpoint creation and logging. They are foreign libraries, and the model takes their results as inputs.
- Threads, `std::atomic`, mutexes and sleeps are not modelled. The sensor-thread worker and main run one after the other. The number of worker rounds that happen while main waits is a parameter, and the stop flag is set after them. Interleavings are not modelled.
- Floating point is not modelled. Vectors are `real` triples. sin / cos and the matrix and rotation algebra are parameters or symbolic values: `Gf.Rotation`, the matrix built from SRT, `extract_srt_xform_from_matrix4`, `decompose_rotation` and `Orthonormalize`. Float rounding in `+=`, and the conversion of the C++ offsets to `float`, are not modelled.
- SimpleSensor.FloorCbrt: the exact integer floor cube root stands for `floor(std::cbrt((double)n))`. On a large perfect cube the float `cbrt` may come out just below the root, which this model does not capture.
- The keyboard is an input sequence of characters: `_getch`, `getchar`, `getChar` and termios are left out.
- argparse is not modelled. The Python samples' parsed flags are input records.
- Parts of `_set_value_with_precision` (xform_utils.py:109-139) are left out: the time-code handling, the `Gf.IsClose` skip, and the precision conversion of values. TransformPrimSRT is always called at the default time code. In that case the skip branch never runs, and every set is a plain write, which is what the model does.
- `_clear_transform_at_time`, `_xform_is_time_sampled`, `undo` and the `Tf.ErrorException` retry inside `_find_or_add` are not modelled. The retry recovers from a library error that the model's op stack cannot produce.
- The reset-xform-stack flag is not modelled; the samples only pass it through.
- `save_stage` is not modelled; it is a library save.
- The other scene-authoring functions are not modelled: colour attributes, the quad, the dynamic cube, the materials, the lights, the empty folder and the physics scene. They are library calls in a fixed order. Only createBox's mesh, ops and physics are modelled, and of createDynamicCube and createQuad only their exits when the prim's Define fails (helloWorld.py:163-164, 184-185), which HelloWorldPy.PyMain takes as the inputs `cubeOk` and `quadOk`. The C++ twins only return from the function there (helloWorld.cpp:364, 387) and main carries on, so the C++ model has no such exit.
- `ntpath.join` is modelled for later components that carry no drive and are not rooted; the first component (the Visual Studio path) carries its drive as plain text. A bare-drive first component such as `C:`, which ntpath joins as `C:x`, is not modelled.
- The host-deps XML is a list of dependencies, each with its name attribute and its source paths. Other elements, other attributes, comments and the file write are left out.
- vswhere's JSON decoding, subprocess runs and `os.path.exists` / `os.listdir` are inputs. A JSON decoding error of vswhere's output is left out.
- FindBuildTools.UpdateHostDeps: it works on the already parsed host-deps tree and the decoded batch lines. The `stdout.decode()` raise (findwindowsbuildtools.py:53) and the `ElementTree.parse` raise (findwindowsbuildtools.py:65) enter only FindBuildTools.RunCommand, as its inputs `batDecodes` and `hostDepsParsed`.
- FindBuildTools.VcPathShape: it states the prefix and suffix of the MSVC path, not the exact joined string.
- FindBuildTools.FindVsSpec: its own ensures states only the missing Program Files case. The selection itself is stated in FindBuildTools.FindVsSelects, FindBuildTools.SearchSpec and FindBuildTools.ListSpec.
- XformUtils.TransformPrimSRT.SetTransform: its requires exclude a rotation order with a component outside [-3, 3), where Python raises IndexError. Neither that raise nor the stack it leaves is modelled: the single-axis branch (xform_utils.py:280-281) raises after adding the translate op (line 268), the Orient branch (lines 302-304) after adding the Orient op (line 299), and the matrix path (lines 177-181, from line 214) before the reorder. The samples always pass the order (0, 1, 2).
- HelloWorldCpp.LiveEdit: the loop ends when the key sequence runs out. Once its input is exhausted, the C++ `getchar()` returns EOF, which is neither 'q' nor escape, so `while (wait)` runs forever (helloWorld.cpp:764-770). The same holds for HelloWorldCpp.RunKeys.
- HelloWorldCpp.IsValidOmniUrl: a URL with host and path but no scheme is answered "invalid", so HelloWorldCpp.UrlNotice warns. The C++ builds a `std::string` from the null scheme pointer there (helloWorld.cpp:877-879), which is undefined behaviour.
- Common.Atoi: unbounded. C's `atoi` on a number outside the range of `int` is undefined behaviour. So the thread and zone count (omniSimpleSensor.cpp:349) and the thread arguments (omniSensorThread.cpp:289, 293) are faithful only for values that fit.
- XformUtils.Step: a translate, rotateXYZ or scale value that is not a vector counts as a raise, and so does XformUtils.AsVector. `Gf.Vec3d` also accepts a scalar (xform_utils.py:427-433), and that case is not modelled.
- HelloWorldPy.CreateBox: the model takes the "Failure to create box" exit whenever Define fails. The source tests `if not boxPrim` only after writing attributes to the prim (helloWorld.py:255-264), so on an invalid prim those writes may raise first.
- HelloWorldPy.RunLiveEdit: the loop ends when the key sequence runs out, and so does HelloWorldPy.RunLiveKeys. The source does not: at end of input `sys.stdin.read(1)` returns `''` (helloWorld.py:418), getChar returns `b''`, which is neither 't' nor a quit key, so the `else` branch (helloWorld.py:469-470) keeps `while True` (helloWorld.py:435) running forever. Keys are characters, and the raise of `encode("ASCII")` in getChar (helloWorld.py:422) on a non-ASCII key is not modelled either.
- HelloWorldCpp.HelloWorldMain: whether a mesh was created or found is the parameter `meshOk`. It is not computed from HelloWorldCpp.CreateBox or HelloWorldCpp.FindGeomMesh.
- HelloWorldCpp.ParseArgs: the extra `argc > x` test in the `-p` branch always holds inside the loop, so the model drops it.
- omniUSDReader (OmniUSDReader.cpp) only prints library results, and the build scripts (build.py, clean.py, filecopy.py, package.py) and log.py are plumbing; none of them is part of this model.
- Console output text is not modelled. The warnings are kept as values, and the one quirk is kept as it is: after an invalid `-e` URL (helloWorld.cpp:958) the C++ sample prints the destination path, not the stage URL.

## Findings

| source | as written | input that shows it | evidently intended | confidence | as-written member | corrected member |
|---|---|---|---|---|---|---|
| source/pyHelloWorld/helloWorld.py:296 | `sys.exit("[ERROR] No UsdGeomMesh found in stage:", existing_stage)` passes two arguments to `sys.exit`, which takes at most one, so Python raises TypeError instead of exiting with the message | an existing stage that opens but holds no mesh, e.g. `--existing omniverse://localhost/Users/test/empty.usd` | exit with the message followed by the stage URL, as the other exits of the file do (`"..." + existing_stage`, line 289) | high, not executed | `HelloWorldPy.NoMeshEndAsWritten`, shown by `HelloWorldPy.NoMeshRaisesTypeError` | `HelloWorldPy.NoMeshEnd`, used by `HelloWorldPy.FindGeomMesh` |
