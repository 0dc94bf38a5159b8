/**
 * The C++ hello-world sample (helloWorld.cpp): its command-line parser, the
 * URL, physics and checkpoint decisions, the box it creates, the search for
 * a mesh in an existing stage, and the live-edit key loop that moves the box
 * on a circle while rewriting its translate / rotate / scale ops.
 *
 * Omniverse Client and USD calls whose results the sample only tests are
 * parameters here: omniClientBreakUrl (`breakUrl`), startOmniverse
 * (`startOk`), UsdGeomMesh::Define (`defineOk`), the server-info callback
 * (`ServerInfoReply`), stage traversal (`traversal`), keyboard input (`keys`)
 * and the sine/cosine of the angle (`circle`).
 */
module HelloWorldCpp {
  import opened Common
  import opened UsdXform
  import opened BoxGeometry

  // ---------------------------------------------------------------------------
  // URLs
  // ---------------------------------------------------------------------------

  /** The parts of an OmniClientUrl the samples read; None is a null pointer. */
  datatype OmniUrl = OmniUrl(scheme: Option<string>, host: Option<string>, path: Option<string>)

  predicate IsOmniScheme(s: string) {
    s == "omniverse" || s == "omni"
  }

  /** isValidOmniURL: host and path present and an Omniverse scheme. */
  predicate IsValidOmniUrl(u: OmniUrl) {
    u.host.Some? && u.path.Some? && u.scheme.Some? && IsOmniScheme(u.scheme.value)
  }

  // ---------------------------------------------------------------------------
  // Physics and checkpoints
  // ---------------------------------------------------------------------------

  datatype Approximation = ConvexHull | NoApproximation

  /** What enablePhysics applies to a prim: the rigid-body API, the collision
      API and, on a mesh, the mesh-collision API with its approximation. */
  datatype PhysicsApis = PhysicsApis(rigidBody: bool, collision: bool, meshApproximation: Option<Approximation>)

  /** enablePhysics. */
  function EnablePhysics(isMesh: bool, dynamic: bool): (p: PhysicsApis)
    ensures p.collision
    ensures p.rigidBody <==> dynamic
    ensures p.meshApproximation.Some? <==> isMesh
    ensures isMesh ==> (p.meshApproximation == Some(ConvexHull) <==> dynamic)
  {
    var rigidBody := dynamic;
    var mesh := if isMesh then Some(if dynamic then ConvexHull else NoApproximation) else None;
    PhysicsApis(rigidBody, true, mesh)
  }

  datatype ServerInfo = ServerInfo(checkpointsEnabled: bool)

  /** The arguments omniClientGetServerInfo passes its callback: whether the
      result is eOmniClientResult_Ok, and the info, which may be null. */
  datatype ServerInfoReply = ServerInfoReply(ok: bool, info: Option<ServerInfo>)

  /** checkpointFile: whether a checkpoint is created. `liveDefault` is
      omniUsdLiveGetDefaultEnabled(); the support flag starts false and only
      an ok reply with info overwrites it. */
  function CheckpointFile(liveDefault: bool, reply: ServerInfoReply): (checkpoint: bool)
    ensures checkpoint <==> !liveDefault && reply.ok && reply.info.Some? && reply.info.value.checkpointsEnabled
  {
    if liveDefault then false
    else
      var supported := if reply.ok && reply.info.Some? then reply.info.value.checkpointsEnabled else false;
      supported
  }

  // ---------------------------------------------------------------------------
  // Command line
  // ---------------------------------------------------------------------------

  /** A warning printed while parsing; parsing goes on after each. */
  datatype Notice =
    | NotOmniUrl(printed: string)
    | Unrecognized(arg: string)

  /** The variables main's argument loop sets. */
  datatype Options = Options(live: bool, existing: string, destination: string, verbose: bool, notices: seq<Notice>)

  const DefaultDestination: string := "omniverse://localhost/Users/test"

  const InitialOptions: Options := Options(false, "", DefaultDestination, false, [])

  /** How the argument loop ends: `return 0` after the help text, `return -1`
      for a missing value, or falling through with the options. */
  datatype ArgsOutcome = Help | Missing | Proceed(opts: Options)

  predicate IsHelpFlag(a: string) { a == "-h" || a == "--help" }
  predicate IsLiveFlag(a: string) { a == "-l" || a == "--live" }
  predicate IsPathFlag(a: string) { a == "-p" || a == "--path" }
  predicate IsVerboseFlag(a: string) { a == "-v" || a == "--verbose" }
  predicate IsExistingFlag(a: string) { a == "-e" || a == "--existing" }

  /** The warning printed, naming `printed`, when a URL is not an Omniverse
      URL; none otherwise. */
  function UrlNotice(u: OmniUrl, printed: string): (n: seq<Notice>)
    ensures n == [] <==> IsValidOmniUrl(u)
    ensures n != [] ==> n == [NotOmniUrl(printed)]
  {
    if IsValidOmniUrl(u) then [] else [NotOmniUrl(printed)]
  }

  /** The argument loop on the remaining arguments `args`. An invalid URL after
      -e prints the destination path, not the stage URL it tested. */
  function ParseTokens(args: seq<string>, o: Options, breakUrl: string -> OmniUrl): ArgsOutcome
    decreases |args|
  {
    if args == [] then Proceed(o)
    else
      var a := args[0];
      if IsHelpFlag(a) then Help
      else if IsLiveFlag(a) then ParseTokens(args[1..], o.(live := true), breakUrl)
      else if IsPathFlag(a) then
        if |args| == 1 then Missing
        else
          var d := args[1];
          var warn := UrlNotice(breakUrl(d), d);
          ParseTokens(args[2..], o.(destination := d, notices := o.notices + warn), breakUrl)
      else if IsVerboseFlag(a) then ParseTokens(args[1..], o.(verbose := true), breakUrl)
      else if IsExistingFlag(a) then
        if |args| == 1 then Missing
        else
          var e := args[1];
          var warn := UrlNotice(breakUrl(e), o.destination);
          ParseTokens(args[2..], o.(live := true, existing := e, notices := o.notices + warn), breakUrl)
      else ParseTokens(args[1..], o.(notices := o.notices + [Unrecognized(a)]), breakUrl)
  }

  /** argv from position x on. */
  function Rest(argv: seq<string>, x: nat): (r: seq<string>)
    ensures |r| == if x < |argv| then |argv| - x else 0
  {
    if x < |argv| then argv[x..] else []
  }

  /** The arguments after the program name. */
  function ProgramArgs(argv: seq<string>): seq<string> {
    Rest(argv, 1)
  }

  /** The remaining arguments at position x start with argv[x] (and
      argv[x + 1] when there is one). */
  lemma RestStep(argv: seq<string>, x: nat)
    requires x < |argv|
    ensures var rest := Rest(argv, x);
            rest != [] && rest[0] == argv[x] && rest[1..] == Rest(argv, x + 1) &&
            (x + 1 < |argv| ==> |rest| > 1 && rest[1] == argv[x + 1] && rest[2..] == Rest(argv, x + 2))
  {
  }

  // One turn of the argument loop at position x, one lemma per branch.

  lemma ParseHelpStep(argv: seq<string>, x: nat, o: Options, breakUrl: string -> OmniUrl)
    requires x < |argv| && IsHelpFlag(argv[x])
    ensures ParseTokens(Rest(argv, x), o, breakUrl) == Help
  {
    RestStep(argv, x);
  }

  lemma ParseLiveStep(argv: seq<string>, x: nat, o: Options, breakUrl: string -> OmniUrl)
    requires x < |argv| && !IsHelpFlag(argv[x]) && IsLiveFlag(argv[x])
    ensures ParseTokens(Rest(argv, x), o, breakUrl) == ParseTokens(Rest(argv, x + 1), o.(live := true), breakUrl)
  {
    RestStep(argv, x);
  }

  lemma ParseVerboseStep(argv: seq<string>, x: nat, o: Options, breakUrl: string -> OmniUrl)
    requires x < |argv| && !IsHelpFlag(argv[x]) && !IsLiveFlag(argv[x]) && !IsPathFlag(argv[x]) && IsVerboseFlag(argv[x])
    ensures ParseTokens(Rest(argv, x), o, breakUrl) == ParseTokens(Rest(argv, x + 1), o.(verbose := true), breakUrl)
  {
    RestStep(argv, x);
  }

  /** An unrecognized argument is reported and skipped. */
  lemma ParseOtherStep(argv: seq<string>, x: nat, o: Options, breakUrl: string -> OmniUrl)
    requires x < |argv|
    requires !IsHelpFlag(argv[x]) && !IsLiveFlag(argv[x]) && !IsPathFlag(argv[x]) && !IsVerboseFlag(argv[x]) && !IsExistingFlag(argv[x])
    ensures ParseTokens(Rest(argv, x), o, breakUrl) ==
            ParseTokens(Rest(argv, x + 1), o.(notices := o.notices + [Unrecognized(argv[x])]), breakUrl)
  {
    RestStep(argv, x);
  }

  /** -p as the last argument is a missing value; otherwise it takes the next
      argument as the destination, with a notice when that is no Omniverse URL. */
  lemma ParsePathStep(argv: seq<string>, x: nat, o: Options, breakUrl: string -> OmniUrl)
    requires x < |argv| && !IsHelpFlag(argv[x]) && !IsLiveFlag(argv[x]) && IsPathFlag(argv[x])
    ensures x == |argv| - 1 ==> ParseTokens(Rest(argv, x), o, breakUrl) == Missing
    ensures x < |argv| - 1 ==>
            var d := argv[x + 1];
            var n := o.notices + UrlNotice(breakUrl(d), d);
            ParseTokens(Rest(argv, x), o, breakUrl) == ParseTokens(Rest(argv, x + 2), o.(destination := d, notices := n), breakUrl)
  {
    RestStep(argv, x);
  }

  /** -e as the last argument is a missing value; otherwise it switches the
      live edit on and takes the next argument as the stage, with a notice
      (naming the destination) when that is no Omniverse URL. */
  lemma ParseExistingStep(argv: seq<string>, x: nat, o: Options, breakUrl: string -> OmniUrl)
    requires x < |argv| && !IsHelpFlag(argv[x]) && !IsLiveFlag(argv[x]) && !IsPathFlag(argv[x]) && !IsVerboseFlag(argv[x])
    requires IsExistingFlag(argv[x])
    ensures x == |argv| - 1 ==> ParseTokens(Rest(argv, x), o, breakUrl) == Missing
    ensures x < |argv| - 1 ==>
            var e := argv[x + 1];
            var n := o.notices + UrlNotice(breakUrl(e), o.destination);
            ParseTokens(Rest(argv, x), o, breakUrl) == ParseTokens(Rest(argv, x + 2), o.(live := true, existing := e, notices := n), breakUrl)
  {
    RestStep(argv, x);
  }

  /** main's `for (int x = 1; x < argc; x++)` loop. The extra `argc > x` in
      the -p test always holds inside the loop. */
  method ParseArgs(argv: seq<string>, breakUrl: string -> OmniUrl) returns (r: ArgsOutcome)
    ensures r == ParseTokens(ProgramArgs(argv), InitialOptions, breakUrl)
  {
    var opts := InitialOptions;
    var x := 1;
    ghost var outcome := ParseTokens(ProgramArgs(argv), InitialOptions, breakUrl);
    while x < |argv|
      invariant x >= 1
      invariant ParseTokens(Rest(argv, x), opts, breakUrl) == outcome
      decreases |argv| - x
    {
      var next, opts', stop := ParseArg(argv, x, opts, breakUrl);
      if stop.Some? {
        return stop.value;
      }
      x, opts := next, opts';
    }
    return Proceed(opts);
  }

  /** One turn of the argument loop at position x: the position and options
      it moves on to, or the outcome it returns with. */
  method ParseArg(argv: seq<string>, x: nat, opts: Options, breakUrl: string -> OmniUrl)
    returns (next: nat, opts': Options, stop: Option<ArgsOutcome>)
    requires x < |argv|
    ensures x < next
    ensures stop.Some? ==> ParseTokens(Rest(argv, x), opts, breakUrl) == stop.value
    ensures stop.None? ==> ParseTokens(Rest(argv, x), opts, breakUrl) == ParseTokens(Rest(argv, next), opts', breakUrl)
  {
    var a := argv[x];
    next, opts', stop := x + 1, opts, None;
    if IsHelpFlag(a) {
      ParseHelpStep(argv, x, opts, breakUrl);
      stop := Some(Help);
    } else if IsLiveFlag(a) {
      ParseLiveStep(argv, x, opts, breakUrl);
      opts' := opts.(live := true);
    } else if IsPathFlag(a) {
      ParsePathStep(argv, x, opts, breakUrl);
      if x == |argv| - 1 {
        stop := Some(Missing);
      } else {
        var destinationPath := argv[x + 1];
        opts' := opts.(destination := destinationPath, notices := opts.notices + UrlNotice(breakUrl(destinationPath), destinationPath));
        next := x + 2;
      }
    } else if IsVerboseFlag(a) {
      ParseVerboseStep(argv, x, opts, breakUrl);
      opts' := opts.(verbose := true);
    } else if IsExistingFlag(a) {
      ParseExistingStep(argv, x, opts, breakUrl);
      if x == |argv| - 1 {
        stop := Some(Missing);
      } else {
        var existingStage := argv[x + 1];
        opts' := opts.(live := true, existing := existingStage,
                       notices := opts.notices + UrlNotice(breakUrl(existingStage), opts.destination));
        next := x + 2;
      }
    } else {
      ParseOtherStep(argv, x, opts, breakUrl);
      opts' := opts.(notices := opts.notices + [Unrecognized(a)]);
    }
  }

  /** Parsing is compositional: once a prefix is parsed through, the rest is
      parsed from the options it left, and a help flag ends parsing whatever follows. */
  lemma {:induction false} ParseTokensAppend(a: seq<string>, b: seq<string>, o: Options, breakUrl: string -> OmniUrl)
    ensures ParseTokens(a, o, breakUrl) == Help ==> ParseTokens(a + b, o, breakUrl) == Help
    ensures ParseTokens(a, o, breakUrl).Proceed? ==>
              ParseTokens(a + b, o, breakUrl) == ParseTokens(b, ParseTokens(a, o, breakUrl).opts, breakUrl)
    decreases |a|
  {
    if a == [] {
      assert a + b == b;
    } else {
      var f := a[0];
      assert (a + b)[0] == f;
      assert (a + b)[1..] == a[1..] + b;
      if IsHelpFlag(f) {
      } else if IsLiveFlag(f) {
        ParseTokensAppend(a[1..], b, o.(live := true), breakUrl);
      } else if IsPathFlag(f) || IsExistingFlag(f) {
        if |a| > 1 {
          assert (a + b)[1] == a[1];
          assert (a + b)[2..] == a[2..] + b;
          var v := a[1];
          if IsPathFlag(f) {
            var warn := UrlNotice(breakUrl(v), v);
            ParseTokensAppend(a[2..], b, o.(destination := v, notices := o.notices + warn), breakUrl);
          } else {
            var warn := UrlNotice(breakUrl(v), o.destination);
            ParseTokensAppend(a[2..], b, o.(live := true, existing := v, notices := o.notices + warn), breakUrl);
          }
        }
      } else if IsVerboseFlag(f) {
        ParseTokensAppend(a[1..], b, o.(verbose := true), breakUrl);
      } else {
        ParseTokensAppend(a[1..], b, o.(notices := o.notices + [Unrecognized(f)]), breakUrl);
      }
    }
  }

  /** -h / --help returns 0 at once, whatever arguments follow it. */
  lemma HelpIgnoresTheRest(pre: seq<string>, h: string, post: seq<string>, o: Options, breakUrl: string -> OmniUrl)
    requires ParseTokens(pre, o, breakUrl).Proceed? && IsHelpFlag(h)
    ensures ParseTokens(pre + [h] + post, o, breakUrl) == Help
  {
    assert pre + [h] + post == pre + ([h] + post);
    ParseTokensAppend(pre, [h] + post, o, breakUrl);
  }

  /** -p / --path or -e / --existing as the last argument returns -1. */
  lemma TrailingValueFlagIsMissing(pre: seq<string>, f: string, o: Options, breakUrl: string -> OmniUrl)
    requires ParseTokens(pre, o, breakUrl).Proceed? && (IsPathFlag(f) || IsExistingFlag(f))
    ensures ParseTokens(pre + [f], o, breakUrl) == Missing
  {
    ParseTokensAppend(pre, [f], o, breakUrl);
  }

  /** The effect of each flag in the middle of a command line: -l sets live
      mode, -v logging, -p X the destination, -e X the stage and live mode,
      an invalid URL only adds a warning, an unknown option only a notice,
      and in every case parsing continues with what follows. */
  lemma FlagEffect(pre: seq<string>, f: string, v: string, post: seq<string>, o: Options, breakUrl: string -> OmniUrl)
    requires ParseTokens(pre, o, breakUrl).Proceed?
    ensures var p := ParseTokens(pre, o, breakUrl).opts;
      (IsLiveFlag(f) ==> ParseTokens(pre + [f] + post, o, breakUrl) == ParseTokens(post, p.(live := true), breakUrl)) &&
      (IsVerboseFlag(f) ==> ParseTokens(pre + [f] + post, o, breakUrl) == ParseTokens(post, p.(verbose := true), breakUrl)) &&
      (IsPathFlag(f) ==>
         ParseTokens(pre + [f, v] + post, o, breakUrl) ==
         ParseTokens(post, p.(destination := v,
                              notices := p.notices + UrlNotice(breakUrl(v), v)), breakUrl)) &&
      (IsExistingFlag(f) ==>
         ParseTokens(pre + [f, v] + post, o, breakUrl) ==
         ParseTokens(post, p.(live := true, existing := v,
                              notices := p.notices + UrlNotice(breakUrl(v), p.destination)), breakUrl)) &&
      (!IsHelpFlag(f) && !IsLiveFlag(f) && !IsPathFlag(f) && !IsVerboseFlag(f) && !IsExistingFlag(f) ==>
         ParseTokens(pre + [f] + post, o, breakUrl) == ParseTokens(post, p.(notices := p.notices + [Unrecognized(f)]), breakUrl))
  {
    assert pre + [f] + post == pre + ([f] + post);
    assert pre + [f, v] + post == pre + ([f, v] + post);
    ParseTokensAppend(pre, [f] + post, o, breakUrl);
    ParseTokensAppend(pre, [f, v] + post, o, breakUrl);
    assert ([f] + post)[1..] == post;
    assert ([f, v] + post)[2..] == post;
  }

  /** Parsing only ever turns live mode and logging on, sets a stage only
      together with live mode, and adds warnings without dropping any. */
  lemma {:induction false} ParseTokensMonotone(args: seq<string>, o: Options, breakUrl: string -> OmniUrl)
    ensures var r := ParseTokens(args, o, breakUrl);
      r.Proceed? ==>
        (o.live ==> r.opts.live) && (o.verbose ==> r.opts.verbose) &&
        (r.opts.existing != o.existing ==> r.opts.live) &&
        |o.notices| <= |r.opts.notices| && r.opts.notices[..|o.notices|] == o.notices
    decreases |args|
  {
    if args != [] {
      var a := args[0];
      if IsLiveFlag(a) {
        ParseTokensMonotone(args[1..], o.(live := true), breakUrl);
      } else if IsPathFlag(a) {
        if |args| > 1 {
          var d := args[1];
          var warn := UrlNotice(breakUrl(d), d);
          var o1 := o.(destination := d, notices := o.notices + warn);
          ParseTokensMonotone(args[2..], o1, breakUrl);
          PrefixOfPrefix(o.notices, o1.notices, ParseTokens(args, o, breakUrl));
        }
      } else if IsVerboseFlag(a) {
        ParseTokensMonotone(args[1..], o.(verbose := true), breakUrl);
      } else if IsExistingFlag(a) {
        if |args| > 1 {
          var e := args[1];
          var warn := UrlNotice(breakUrl(e), o.destination);
          var o1 := o.(live := true, existing := e, notices := o.notices + warn);
          ParseTokensMonotone(args[2..], o1, breakUrl);
          PrefixOfPrefix(o.notices, o1.notices, ParseTokens(args, o, breakUrl));
        }
      } else if !IsHelpFlag(a) {
        var o1 := o.(notices := o.notices + [Unrecognized(a)]);
        ParseTokensMonotone(args[1..], o1, breakUrl);
        PrefixOfPrefix(o.notices, o1.notices, ParseTokens(args, o, breakUrl));
      }
    }
  }

  lemma PrefixOfPrefix(n0: seq<Notice>, n1: seq<Notice>, r: ArgsOutcome)
    requires |n0| <= |n1| && n1[..|n0|] == n0
    requires r.Proceed? ==> |n1| <= |r.opts.notices| && r.opts.notices[..|n1|] == n1
    ensures r.Proceed? ==> |n0| <= |r.opts.notices| && r.opts.notices[..|n0|] == n0
  {
    if r.Proceed? {
      assert r.opts.notices[..|n0|] == r.opts.notices[..|n1|][..|n0|];
    }
  }

  /** Naming an existing stage always asks for a live session. */
  lemma ExistingStageMeansLive(argv: seq<string>, breakUrl: string -> OmniUrl)
    ensures var r := ParseTokens(ProgramArgs(argv), InitialOptions, breakUrl);
            r.Proceed? && r.opts.existing != "" ==> r.opts.live
  {
    ParseTokensMonotone(ProgramArgs(argv), InitialOptions, breakUrl);
  }

  // ---------------------------------------------------------------------------
  // main
  // ---------------------------------------------------------------------------

  /** How main ends and what it did on the way. */
  datatype MainResult = MainResult(code: int, startedOmniverse: bool, createdStage: bool, openedExisting: bool, ranLiveEdit: bool)

  /** main after its argument loop: `exit(1)` when startOmniverse fails,
      otherwise a new stage (no -e) or the existing one, and the live edit only
      when live mode is on and a mesh was created or found (`meshOk`). */
  function HelloWorldMain(argv: seq<string>, breakUrl: string -> OmniUrl, startOk: bool, meshOk: bool): (r: MainResult)
    ensures ParseTokens(ProgramArgs(argv), InitialOptions, breakUrl).Proceed? <==> r.startedOmniverse
    ensures r.ranLiveEdit ==> startOk && meshOk && ParseTokens(ProgramArgs(argv), InitialOptions, breakUrl).Proceed? &&
                              ParseTokens(ProgramArgs(argv), InitialOptions, breakUrl).opts.live
  {
    match ParseTokens(ProgramArgs(argv), InitialOptions, breakUrl)
    case Help => MainResult(0, false, false, false, false)
    case Missing => MainResult(-1, false, false, false, false)
    case Proceed(o) =>
      if !startOk then MainResult(1, true, false, false, false)
      else MainResult(0, true, o.existing == "", o.existing != "", o.live && meshOk)
  }

  /** `-h` anywhere the loop reaches returns 0 without starting Omniverse, and a
      trailing -p / -e returns -1 without starting it. */
  lemma MainStopsEarly(argv: seq<string>, pre: seq<string>, f: string, post: seq<string>,
                       breakUrl: string -> OmniUrl, startOk: bool, meshOk: bool)
    requires |argv| >= 1 && ParseTokens(pre, InitialOptions, breakUrl).Proceed?
    ensures IsHelpFlag(f) && argv[1..] == pre + [f] + post ==>
              HelloWorldMain(argv, breakUrl, startOk, meshOk) == MainResult(0, false, false, false, false)
    ensures (IsPathFlag(f) || IsExistingFlag(f)) && argv[1..] == pre + [f] ==>
              HelloWorldMain(argv, breakUrl, startOk, meshOk) == MainResult(-1, false, false, false, false)
  {
    if IsHelpFlag(f) {
      HelpIgnoresTheRest(pre, f, post, InitialOptions, breakUrl);
    }
    if IsPathFlag(f) || IsExistingFlag(f) {
      TrailingValueFlagIsMissing(pre, f, InitialOptions, breakUrl);
    }
  }

  // ---------------------------------------------------------------------------
  // createBox and findGeomMesh
  // ---------------------------------------------------------------------------

  /** What createBox authors on the new mesh prim. */
  datatype BoxPrim = BoxPrim(path: string, mesh: MeshData, ops: seq<XformOp>, values: map<XformOp, OpValue>, physics: PhysicsApis)

  const CppBoxTranslate: XformOp := NewOp(TypeTranslate, PrecisionDouble, "")
  const CppBoxRotate: XformOp := NewOp(TypeRotateXYZ, PrecisionDouble, "")

  /** createBox: defines rootPrimPath/box_<n>, returns at once when that fails,
      otherwise fills the box tables, adds a translate op set to (0, 100, 0)
      and a rotateXYZ op set to (20, 0, 20), and makes it a dynamic rigid body. */
  method CreateBox(rootPrimPath: string, boxNumber: int, defineOk: bool) returns (r: Option<BoxPrim>)
    ensures r.None? <==> !defineOk
    ensures r.Some? ==>
      r.value.path == BoxPrimPath(rootPrimPath, boxNumber) &&
      r.value.mesh == ShiftedBox(Vec3i(0, 0, 0)) &&
      r.value.ops == [CppBoxTranslate, CppBoxRotate] &&
      r.value.values == map[CppBoxTranslate := Vector(Vec3(0.0, 100.0, 0.0)),
                            CppBoxRotate := Vector(Vec3(20.0, 0.0, 20.0))] &&
      r.value.physics == EnablePhysics(true, true)
  {
    var path := rootPrimPath + "/box_" + IntToDecimal(boxNumber);
    if !defineOk {
      return None;
    }
    var mesh := FillBoxMesh(Vec3i(0, 0, 0));
    var ops, values := MoveItUp();
    var physics := EnablePhysics(true, true);
    return Some(BoxPrim(path, mesh, ops, values, physics));
  }

  /** The two ops createBox adds to the new mesh: AddTranslateOp set to
      (0, 100, 0), then AddRotateXYZOp set to (20, 0, 20), both double. */
  method MoveItUp() returns (ops: seq<XformOp>, values: map<XformOp, OpValue>)
    ensures ops == [CppBoxTranslate, CppBoxRotate]
    ensures values == map[CppBoxTranslate := Vector(Vec3(0.0, 100.0, 0.0)),
                          CppBoxRotate := Vector(Vec3(20.0, 0.0, 20.0))]
  {
    var xform := new Xformable([], map[]);
    var t := xform.AddXformOp(TypeTranslate, PrecisionDouble, "");
    assert xform.ops == [t];
    xform.SetValue(t, Vector(Vec3(0.0, 100.0, 0.0)));
    var rx := xform.AddXformOp(TypeRotateXYZ, PrecisionDouble, "");
    assert xform.ops == [t, rx];
    xform.SetValue(rx, Vector(Vec3(20.0, 0.0, 20.0)));
    ops, values := xform.ops, xform.values;
  }

  /** A prim as stage traversal yields it. */
  datatype StagePrim = StagePrim(path: string, isMesh: bool)

  predicate IsMeshPrim(p: StagePrim) { p.isMesh }

  /** The first mesh of a traversal. */
  function FirstMesh(traversal: seq<StagePrim>): Option<StagePrim> {
    match FirstIndexWhere(traversal, IsMeshPrim)
    case None => None
    case Some(i) => Some(traversal[i])
  }

  /** findGeomMesh: an empty mesh when the stage does not open, else the
      first mesh in traversal order, else an empty mesh. */
  method FindGeomMesh(stageOpened: bool, traversal: seq<StagePrim>) returns (mesh: Option<StagePrim>)
    ensures mesh == (if stageOpened then FirstMesh(traversal) else None)
  {
    if !stageOpened {
      return None;
    }
    var i := 0;
    while i < |traversal|
      invariant 0 <= i <= |traversal|
      invariant forall j :: 0 <= j < i ==> !IsMeshPrim(traversal[j])
    {
      if traversal[i].isMesh {
        assert FirstIndexWhere(traversal, IsMeshPrim) == Some(i);
        return Some(traversal[i]);
      }
      i := i + 1;
    }
    assert FirstIndexWhere(traversal, IsMeshPrim) == None;
    return None;
  }

  /** The mesh found is a mesh of the traversal, every prim before it is not
      one, and none is found only when the traversal holds no mesh. */
  lemma FirstMeshIsFirst(traversal: seq<StagePrim>)
    ensures var m := FirstMesh(traversal);
      (m.None? <==> forall i :: 0 <= i < |traversal| ==> !traversal[i].isMesh) &&
      (m.Some? ==> m.value.isMesh &&
                   exists i :: 0 <= i < |traversal| && traversal[i] == m.value &&
                               forall j :: 0 <= j < i ==> !traversal[j].isMesh)
  {
    match FirstIndexWhere(traversal, IsMeshPrim)
    case None =>
    case Some(i) =>
      assert traversal[i] == FirstMesh(traversal).value;
  }

  // ---------------------------------------------------------------------------
  // liveEdit
  // ---------------------------------------------------------------------------

  const Esc: char := 27 as char

  predicate IsQuitKey(c: char) { c == 'q' || c == Esc }

  /** `angle += 15; if (angle >= 360) angle = 0;` */
  function NextAngle(angle: int): int {
    if angle + 15 >= 360 then 0 else angle + 15
  }

  /** The live-edit angles: multiples of 15 in [0, 360). */
  predicate ValidAngle(angle: int) {
    0 <= angle < 360 && angle % 15 == 0
  }

  lemma NextAngleWraps(angle: int)
    requires ValidAngle(angle)
    ensures NextAngle(angle) == (angle + 15) % 360 && ValidAngle(NextAngle(angle))
  {
  }

  /** What the scan over the ordered ops leaves: the last op of each of the
      three types, and the vectors read from them (defaults 0, 0 and 1). */
  datatype Handles = Handles(translateOp: Option<XformOp>, rotateOp: Option<XformOp>, scaleOp: Option<XformOp>,
                             position: Vec3, rotXyz: Vec3, scale: Vec3)

  const NoHandles: Handles := Handles(None, None, None, Zero3, Zero3, One3)

  /** XformOp::Get into a GfVec3d: overwrites the target only when a vector is authored. */
  function GetVector(values: map<XformOp, OpValue>, op: XformOp, current: Vec3): Vec3 {
    if op in values && values[op].Vector? then values[op].v else current
  }

  function ScanStep(h: Handles, op: XformOp, values: map<XformOp, OpValue>): Handles {
    if op.opType == TypeTranslate then h.(translateOp := Some(op), position := GetVector(values, op, h.position))
    else if op.opType == TypeRotateXYZ then h.(rotateOp := Some(op), rotXyz := GetVector(values, op, h.rotXyz))
    else if op.opType == TypeScale then h.(scaleOp := Some(op), scale := GetVector(values, op, h.scale))
    else h
  }

  /** The scan over the first ops of the stack. */
  function Scan(ops: seq<XformOp>, values: map<XformOp, OpValue>): Handles
    decreases |ops|
  {
    if ops == [] then NoHandles else ScanStep(Scan(ops[..|ops| - 1], values), ops[|ops| - 1], values)
  }

  /** Index of the last op of type t. */
  function LastOfType(ops: seq<XformOp>, t: OpType): (r: Option<nat>)
    ensures r.Some? ==> r.value < |ops| && ops[r.value].opType == t &&
                        forall j :: r.value < j < |ops| ==> ops[j].opType != t
    ensures r.None? <==> forall j :: 0 <= j < |ops| ==> ops[j].opType != t
    decreases |ops|
  {
    if ops == [] then None
    else if ops[|ops| - 1].opType == t then Some(|ops| - 1)
    else LastOfType(ops[..|ops| - 1], t)
  }

  function OpAt(ops: seq<XformOp>, i: Option<nat>): Option<XformOp>
    requires i.Some? ==> i.value < |ops|
  {
    if i.None? then None else Some(ops[i.value])
  }

  /** The switch keeps, for each of translate, rotateXYZ and scale, the last
      op of that type on the stack. */
  lemma {:induction false} ScanFindsLastOfEachType(ops: seq<XformOp>, values: map<XformOp, OpValue>)
    ensures Scan(ops, values).translateOp == OpAt(ops, LastOfType(ops, TypeTranslate))
    ensures Scan(ops, values).rotateOp == OpAt(ops, LastOfType(ops, TypeRotateXYZ))
    ensures Scan(ops, values).scaleOp == OpAt(ops, LastOfType(ops, TypeScale))
    decreases |ops|
  {
    if ops != [] {
      var init := ops[..|ops| - 1];
      ScanFindsLastOfEachType(init, values);
      var last := ops[|ops| - 1];
      if last.opType != TypeTranslate { OpAtInit(ops, TypeTranslate); }
      if last.opType != TypeRotateXYZ { OpAtInit(ops, TypeRotateXYZ); }
      if last.opType != TypeScale { OpAtInit(ops, TypeScale); }
    }
  }

  lemma OpAtInit(ops: seq<XformOp>, t: OpType)
    requires ops != [] && ops[|ops| - 1].opType != t
    ensures OpAt(ops, LastOfType(ops, t)) == OpAt(ops[..|ops| - 1], LastOfType(ops[..|ops| - 1], t))
  {
  }

  /** The op SetOp writes: the one the scan found, else a new double-precision op. */
  function ChosenOp(op: Option<XformOp>, t: OpType): XformOp {
    if op.None? then NewOp(t, PrecisionDouble, "") else op.value
  }

  /** The 't' branch on the stack, after the angle has been advanced: move the
      position by (x, 0, y) on the circle, set the Y rotation to the angle,
      (add and) set the three ops, then make them the whole op order. The ops
      SetOp appends are replaced by that order. */
  function MoveBox(ops: seq<XformOp>, values: map<XformOp, OpValue>, angle: int, circle: int -> (real, real))
    : (seq<XformOp>, map<XformOp, OpValue>)
  {
    var h := Scan(ops, values);
    var xy := circle(angle);
    var position := Add(h.position, Vec3(xy.0, 0.0, xy.1));
    var rot := Vec3(h.rotXyz.x, angle as real, h.rotXyz.z);
    var t := ChosenOp(h.translateOp, TypeTranslate);
    var r := ChosenOp(h.rotateOp, TypeRotateXYZ);
    var s := ChosenOp(h.scaleOp, TypeScale);
    ([t, r, s], values[t := Vector(position)][r := Vector(rot)][s := Vector(h.scale)])
  }

  /** The scan hands each SetOp an op of its own type (or none). */
  lemma ChosenOpsTyped(ops: seq<XformOp>, values: map<XformOp, OpValue>)
    ensures var h := Scan(ops, values);
      ChosenOp(h.translateOp, TypeTranslate).opType == TypeTranslate &&
      ChosenOp(h.rotateOp, TypeRotateXYZ).opType == TypeRotateXYZ &&
      ChosenOp(h.scaleOp, TypeScale).opType == TypeScale
  {
    ScanFindsLastOfEachType(ops, values);
  }

  /** After a 't' the op order is exactly a translate, a rotateXYZ and a
      scale op, reusing the last existing op of each type. */
  lemma MoveBoxOrder(ops: seq<XformOp>, values: map<XformOp, OpValue>, angle: int, circle: int -> (real, real))
    ensures var order := MoveBox(ops, values, angle, circle).0;
      |order| == 3 &&
      order[0].opType == TypeTranslate && order[1].opType == TypeRotateXYZ && order[2].opType == TypeScale &&
      (LastOfType(ops, TypeTranslate).Some? ==> order[0] == ops[LastOfType(ops, TypeTranslate).value]) &&
      (LastOfType(ops, TypeRotateXYZ).Some? ==> order[1] == ops[LastOfType(ops, TypeRotateXYZ).value]) &&
      (LastOfType(ops, TypeScale).Some? ==> order[2] == ops[LastOfType(ops, TypeScale).value])
  {
    ScanFindsLastOfEachType(ops, values);
    ChosenOpsTyped(ops, values);
  }

  /** After a 't' the translate op holds the old position moved on the circle,
      the rotate op the old rotation with only its Y component replaced by the
      angle, the scale op the scale read, and no other op's value changes. */
  lemma MoveBoxValues(ops: seq<XformOp>, values: map<XformOp, OpValue>, angle: int, circle: int -> (real, real))
    ensures var (order, vals) := MoveBox(ops, values, angle, circle);
      var h := Scan(ops, values);
      |order| == 3 &&
      vals[order[0]] == Vector(Add(h.position, Vec3(circle(angle).0, 0.0, circle(angle).1))) &&
      vals[order[1]] == Vector(Vec3(h.rotXyz.x, angle as real, h.rotXyz.z)) &&
      vals[order[2]] == Vector(h.scale) &&
      (forall op :: op !in order ==> (op in vals <==> op in values) && (op in values ==> vals[op] == values[op]))
  {
    ChosenOpsTyped(ops, values);
  }

  /** A second 't' reuses the three ops the first one left: the op order no longer changes. */
  lemma MoveBoxStable(ops: seq<XformOp>, values: map<XformOp, OpValue>, a: int, b: int, circle: int -> (real, real))
    ensures var (order, vals) := MoveBox(ops, values, a, circle);
            MoveBox(order, vals, b, circle).0 == order
  {
    var (order, vals) := MoveBox(ops, values, a, circle);
    MoveBoxOrder(ops, values, a, circle);
    ScanFindsLastOfEachType(order, vals);
    assert LastOfType(order, TypeTranslate) == Some(0);
    assert LastOfType(order, TypeRotateXYZ) == Some(1);
    assert LastOfType(order, TypeScale) == Some(2);
  }

  /** The state of a live-edit session: the box's stack and values and the angle. */
  datatype Session = Session(ops: seq<XformOp>, values: map<XformOp, OpValue>, angle: int)

  /** The session after a 't': the angle advanced, then the box moved. */
  function KeyT(s: Session, circle: int -> (real, real)): (r: Session)
    ensures r.angle == NextAngle(s.angle)
  {
    var angle := NextAngle(s.angle);
    var (ops, values) := MoveBox(s.ops, s.values, angle, circle);
    Session(ops, values, angle)
  }

  /** The key loop of liveEdit on the keys still to be read: 't' advances the
      angle and moves the box, 'q' or escape ends the session, any other key
      does nothing. The session also ends when the keys run out. */
  function RunKeys(s: Session, keys: seq<char>, circle: int -> (real, real)): Session
    decreases |keys|
  {
    if keys == [] then s
    else if keys[0] == 't' then RunKeys(KeyT(s, circle), keys[1..], circle)
    else if IsQuitKey(keys[0]) then s
    else RunKeys(s, keys[1..], circle)
  }

  /** The keys read before the first 'q' or escape. */
  function UntilQuit(keys: seq<char>): (r: seq<char>)
    ensures forall i :: 0 <= i < |r| ==> !IsQuitKey(r[i])
    decreases |keys|
  {
    if keys == [] || IsQuitKey(keys[0]) then [] else [keys[0]] + UntilQuit(keys[1..])
  }

  /** The angle alone through the key loop. */
  function AngleAfter(angle: int, keys: seq<char>): int
    decreases |keys|
  {
    if keys == [] then angle
    else if keys[0] == 't' then AngleAfter(NextAngle(angle), keys[1..])
    else if IsQuitKey(keys[0]) then angle
    else AngleAfter(angle, keys[1..])
  }

  lemma {:induction false} RunKeysAngleAfter(s: Session, keys: seq<char>, circle: int -> (real, real))
    ensures RunKeys(s, keys, circle).angle == AngleAfter(s.angle, keys)
    decreases |keys|
  {
    if keys != [] {
      if keys[0] == 't' {
        RunKeysAngleAfter(KeyT(s, circle), keys[1..], circle);
      } else if !IsQuitKey(keys[0]) {
        RunKeysAngleAfter(s, keys[1..], circle);
      }
    }
  }

  /** The angle at any point is 15 times the number of 't' keys read so far,
      modulo 360. */
  lemma RunKeysAngle(s: Session, keys: seq<char>, circle: int -> (real, real))
    requires ValidAngle(s.angle)
    ensures RunKeys(s, keys, circle).angle == (s.angle + 15 * CountChar(UntilQuit(keys), 't')) % 360
    ensures ValidAngle(RunKeys(s, keys, circle).angle)
  {
    RunKeysAngleAfter(s, keys, circle);
    AngleAfterCount(s.angle, keys);
    AngleAfterValid(s.angle, keys);
  }

  lemma {:induction false} AngleAfterCount(angle: int, keys: seq<char>)
    requires ValidAngle(angle)
    ensures AngleAfter(angle, keys) == (angle + 15 * CountChar(UntilQuit(keys), 't')) % 360
    decreases |keys|
  {
    if keys == [] || IsQuitKey(keys[0]) {
      assert UntilQuit(keys) == [];
    } else {
      UntilQuitCountStep(keys);
      var n := CountChar(UntilQuit(keys[1..]), 't');
      if keys[0] == 't' {
        NextAngleWraps(angle);
        AngleAfterCount(NextAngle(angle), keys[1..]);
        AngleStepArith(angle, n);
      } else {
        AngleAfterCount(angle, keys[1..]);
      }
    }
  }

  /** The angle stays a live-edit angle. */
  lemma {:induction false} AngleAfterValid(angle: int, keys: seq<char>)
    requires ValidAngle(angle)
    ensures ValidAngle(AngleAfter(angle, keys))
    decreases |keys|
  {
    if keys != [] && keys[0] == 't' {
      NextAngleWraps(angle);
      AngleAfterValid(NextAngle(angle), keys[1..]);
    } else if keys != [] && !IsQuitKey(keys[0]) {
      AngleAfterValid(angle, keys[1..]);
    }
  }

  /** Each key before the first quit key adds one 't' to the count when it is one. */
  lemma UntilQuitCountStep(keys: seq<char>)
    requires keys != [] && !IsQuitKey(keys[0])
    ensures CountChar(UntilQuit(keys), 't') == (if keys[0] == 't' then 1 else 0) + CountChar(UntilQuit(keys[1..]), 't')
  {
    var u := UntilQuit(keys);
    assert u[0] == keys[0] && u[1..] == UntilQuit(keys[1..]);
  }

  /** One more 't' is 15 more degrees, modulo 360. */
  lemma AngleStepArith(angle: int, n: int)
    requires ValidAngle(angle)
    ensures (NextAngle(angle) + 15 * n) % 360 == (angle + 15 * (n + 1)) % 360
  {
    NextAngleWraps(angle);
    ModAddLemma(angle + 15, 15 * n);
    assert angle + 15 + 15 * n == angle + 15 * (n + 1);
  }

  lemma ModAddLemma(a: int, b: int)
    ensures ((a % 360) + b) % 360 == (a + b) % 360
  {
    var q := a / 360;
    assert a == 360 * q + a % 360;
    assert (a + b) == ((a % 360) + b) + 360 * q;
    ModShift((a % 360) + b, q);
  }

  lemma ModShift(c: int, q: int)
    ensures (c + 360 * q) % 360 == c % 360
  {
  }

  /** 'q' or escape ends the session: nothing after it is read. */
  lemma {:induction false} QuitEndsSession(s: Session, pre: seq<char>, q: char, post: seq<char>, circle: int -> (real, real))
    requires forall i :: 0 <= i < |pre| ==> !IsQuitKey(pre[i])
    requires IsQuitKey(q)
    ensures RunKeys(s, pre + [q] + post, circle) == RunKeys(s, pre, circle)
    decreases |pre|
  {
    if pre == [] {
      assert (pre + [q] + post)[0] == q;
    } else {
      assert (pre + [q] + post)[0] == pre[0];
      assert (pre + [q] + post)[1..] == pre[1..] + [q] + post;
      if pre[0] == 't' {
        QuitEndsSession(KeyT(s, circle), pre[1..], q, post, circle);
      } else {
        QuitEndsSession(s, pre[1..], q, post, circle);
      }
    }
  }

  /** A key other than 't', 'q' and escape changes neither the angle nor the box. */
  lemma {:induction false} OtherKeyChangesNothing(s: Session, pre: seq<char>, c: char, post: seq<char>, circle: int -> (real, real))
    requires c != 't' && !IsQuitKey(c)
    ensures RunKeys(s, pre + [c] + post, circle) == RunKeys(s, pre + post, circle)
    decreases |pre|
  {
    if pre == [] {
      assert (pre + [c] + post)[0] == c;
      assert (pre + [c] + post)[1..] == post;
      assert pre + post == post;
    } else {
      assert (pre + [c] + post)[0] == pre[0];
      assert (pre + [c] + post)[1..] == pre[1..] + [c] + post;
      assert (pre + post)[0] == pre[0];
      assert (pre + post)[1..] == pre[1..] + post;
      if pre[0] == 't' {
        OtherKeyChangesNothing(KeyT(s, circle), pre[1..], c, post, circle);
      } else if !IsQuitKey(pre[0]) {
        OtherKeyChangesNothing(s, pre[1..], c, post, circle);
      }
    }
  }

  /** The scan loop: `for (size_t i = 0; i < xFormOps.size(); i++) switch ...`. */
  method ScanOps(ops: seq<XformOp>, values: map<XformOp, OpValue>) returns (h: Handles)
    ensures h == Scan(ops, values)
  {
    h := NoHandles;
    var i := 0;
    while i < |ops|
      invariant 0 <= i <= |ops|
      invariant h == Scan(ops[..i], values)
    {
      assert ops[..i + 1][..i] == ops[..i];
      var op := ops[i];
      if op.opType == TypeTranslate {
        h := h.(translateOp := Some(op), position := GetVector(values, op, h.position));
      } else if op.opType == TypeRotateXYZ {
        h := h.(rotateOp := Some(op), rotXyz := GetVector(values, op, h.rotXyz));
      } else if op.opType == TypeScale {
        h := h.(scaleOp := Some(op), scale := GetVector(values, op, h.scale));
      }
      i := i + 1;
    }
    assert ops[..i] == ops;
  }

  /** The SetOp helper class: add the op when the scan found none, then set it.
      Both precision branches of the source write the same double vector. */
  method SetOp(mesh: Xformable, op: Option<XformOp>, t: OpType, value: Vec3) returns (r: XformOp)
    modifies mesh
    ensures r == ChosenOp(op, t)
    ensures mesh.ops == old(mesh.ops) + (if op.None? then [r] else [])
    ensures mesh.values == old(mesh.values)[r := Vector(value)]
  {
    if op.None? {
      r := mesh.AddXformOp(t, PrecisionDouble, "");
    } else {
      r := op.value;
    }
    mesh.SetValue(r, Vector(value));
  }

  /** The body of `case 't'` after the angle update. */
  method MoveBoxStep(mesh: Xformable, angle: int, circle: int -> (real, real))
    modifies mesh
    ensures (mesh.ops, mesh.values) == MoveBox(old(mesh.ops), old(mesh.values), angle, circle)
  {
    var h := ScanOps(mesh.ops, mesh.values);
    var xy := circle(angle);
    var position := Add(h.position, Vec3(xy.0, 0.0, xy.1));
    var rotXyz := Vec3(h.rotXyz.x, angle as real, h.rotXyz.z);
    var t := SetOp(mesh, h.translateOp, TypeTranslate, position);
    var r := SetOp(mesh, h.rotateOp, TypeRotateXYZ, rotXyz);
    var s := SetOp(mesh, h.scaleOp, TypeScale, h.scale);
    mesh.SetXformOpOrder([t, r, s]);
  }

  /** liveEdit: the `while (wait)` key loop, from angle 0. */
  method LiveEdit(mesh: Xformable, keys: seq<char>, circle: int -> (real, real)) returns (angle: int)
    modifies mesh
    ensures Session(mesh.ops, mesh.values, angle) == RunKeys(Session(old(mesh.ops), old(mesh.values), 0), keys, circle)
  {
    angle := 0;
    ghost var start := Session(mesh.ops, mesh.values, 0);
    var wait := true;
    var k := 0;
    while wait && k < |keys|
      invariant 0 <= k <= |keys|
      invariant wait ==> RunKeys(Session(mesh.ops, mesh.values, angle), keys[k..], circle) == RunKeys(start, keys, circle)
      invariant !wait ==> Session(mesh.ops, mesh.values, angle) == RunKeys(start, keys, circle)
      decreases |keys| - k, wait
    {
      var nextCommand := keys[k];
      assert keys[k..][0] == nextCommand && keys[k..][1..] == keys[k + 1..];
      if nextCommand == 't' {
        angle := angle + 15;
        if angle >= 360 {
          angle := 0;
        }
        MoveBoxStep(mesh, angle, circle);
      } else if nextCommand == Esc || nextCommand == 'q' {
        wait := false;
      }
      k := k + 1;
    }
    if wait {
      assert keys[k..] == [];
    }
  }
}
