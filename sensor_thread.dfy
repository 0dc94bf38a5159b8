/**
 * The sensor-thread sample (omniSensorThread.cpp): main checks its
 * arguments, opens the stage the simple-sensor sample created, attaches a
 * worker to one zone's box and waits for the timeout; the worker's loop
 * advances a step counter (0 .. 359) and writes a colour scaled by
 * cos(step) on each round until main stops it.
 *
 * The two threads are modelled one after the other: the worker's rounds
 * that happen while main waits are a parameter, and the stop flag is set
 * after them.
 */
module SensorThread {
  import opened Common
  import opened BoxGeometry
  import SimpleSensor

  /** The step after one round: `step++; if (step >= 360) step = 0;`. */
  function Tick(step: int): int {
    if step + 1 >= 360 then 0 else step + 1
  }

  predicate ValidStep(step: int) { 0 <= step < 360 }

  /** The step after n rounds. */
  function StepAfter(step: int, n: nat): int
    decreases n
  {
    if n == 0 then step else Tick(StepAfter(step, n - 1))
  }

  /** From a valid step every round leaves it valid: it goes up by one, and
      359 wraps to 0. */
  lemma TickWraps(step: int)
    requires ValidStep(step)
    ensures ValidStep(Tick(step)) && Tick(step) == (step + 1) % 360
  {
  }

  /** After n rounds from a valid step the step is (step + n) mod 360. */
  lemma {:induction false} StepAfterMod(step: int, n: nat)
    requires ValidStep(step)
    ensures StepAfter(step, n) == (step + n) % 360 && ValidStep(StepAfter(step, n))
    decreases n
  {
    if n > 0 {
      StepAfterMod(step, n - 1);
      TickWraps(StepAfter(step, n - 1));
      ModSucc(step + n - 1);
    }
  }

  lemma ModSucc(a: int)
    requires a >= 0
    ensures ((a % 360) + 1) % 360 == (a + 1) % 360
  {
  }

  /** The variance each round's colour uses: the current one first, then
      cos of each later step. `cos` is the math library's cosine. */
  function VarianceAt(variance: real, step: int, i: int, cos: int -> real): real {
    if i <= 0 then variance else cos(StepAfter(step, i))
  }

  /** The worker: the stop flag, the variance and step of the simulated
      reading, the run limit, the zone, and the variances of the colours it
      has written so far (the colour is (0.463, 0.725, 0) scaled by them). */
  class DataStageWriterWorker {
    var stopped: bool
    var variance: real
    var step: int
    var runLimit: int
    var zone: int
    var written: seq<real>

    constructor ()
      ensures !stopped && variance == 1.0 && step == 0 && runLimit == -1
      ensures written == []
    {
      stopped := false;
      variance := 1.0;
      step := 0;
      runLimit := -1;
      zone := 0;
      written := [];
    }

    /** doWork: `rounds` rounds of the loop, which runs only while the stop
        flag is clear: each writes the colour, advances the step and sets
        the variance to cos(step). */
    method DoWork(rounds: nat, cos: int -> real)
      modifies this
      ensures old(stopped) ==> step == old(step) && variance == old(variance) && written == old(written)
      ensures !old(stopped) ==>
        step == StepAfter(old(step), rounds) &&
        (rounds > 0 ==> variance == cos(step)) && (rounds == 0 ==> variance == old(variance)) &&
        written == old(written) + seq(rounds, i => VarianceAt(old(variance), old(step), i, cos))
      ensures stopped == old(stopped) && runLimit == old(runLimit) && zone == old(zone)
    {
      var k := 0;
      ghost var w0 := written;
      while !stopped && k < rounds
        invariant 0 <= k <= rounds
        invariant stopped == old(stopped) && runLimit == old(runLimit) && zone == old(zone)
        invariant old(stopped) ==> k == 0 && step == old(step) && variance == old(variance) && written == old(written)
        invariant !old(stopped) ==> step == StepAfter(old(step), k)
        invariant !old(stopped) && k > 0 ==> variance == cos(step)
        invariant !old(stopped) && k == 0 ==> variance == old(variance)
        invariant written == w0 + seq(k, i => VarianceAt(old(variance), old(step), i, cos))
      {
        written := written + [variance];
        step := step + 1;
        if step >= 360 {
          step := 0;
        }
        variance := cos(step);
        k := k + 1;
      }
    }
  }

  /** A valid step stays valid through any number of rounds. */
  lemma DoWorkKeepsStepValid(step: int, rounds: nat)
    requires ValidStep(step)
    ensures ValidStep(StepAfter(step, rounds)) && StepAfter(step, rounds) == (step + rounds) % 360
  {
    StepAfterMod(step, rounds);
  }

  /** openOmniverseModel: the URL itself when the stage opens, else "". */
  function OpenOmniverseModel(stageUrl: string, didOpen: bool): (r: string)
    ensures r == "" || r == stageUrl
  {
    if didOpen then stageUrl else ""
  }

  const StageName: string := "/SimpleSensorExample.usd"

  /** The stage URL main builds is never empty, so main's empty-string test
      is exactly the "stage did not open" test. */
  lemma OpenFailsIffEmpty(base: string, didOpen: bool)
    ensures |OpenOmniverseModel(base + StageName, didOpen)| == 0 <==> !didOpen
  {
  }

  /** attachToZoneGeometry: the prim "/World/box_<zone>". */
  function AttachPath(zone: int): (p: string)
    ensures StartsWith(p, "/World/box_")
  {
    var p := "/World/box_" + IntToDecimal(zone);
    assert p[..|"/World/box_"|] == "/World/box_";
    p
  }

  /** The prim a thread attaches to is the prim the simple-sensor sample
      created for that zone: for thread number t below the zone count of a
      successful simple-sensor run, zone t of that run has the path. */
  lemma AttachFindsSimpleSensorZone(sensorArgv: seq<string>, stageOk: bool, defineOk: int -> bool, t: int)
    requires |sensorArgv| == 4 && stageOk && 0 <= t < Atoi(sensorArgv[2])
    ensures var r := SimpleSensor.SimpleSensorSpec(sensorArgv, stageOk, defineOk);
            t < |r.zones| && r.zones[t].path == AttachPath(t)
  {
    SimpleSensor.SimpleSensorZones(sensorArgv, stageOk, defineOk, t);
    assert "/World" + "/box_" == "/World/box_";
    assert BoxPrimPath("/World", t) == "/World" + "/box_" + IntToDecimal(t);
  }

  /** `while (timeout == -1 || elapsedTime < timeout)`. */
  predicate KeepWaiting(timeout: int, elapsed: int) {
    timeout == -1 || elapsed < timeout
  }

  /** The number of clock readings main's wait loop takes before it ends,
      given the elapsed time after each sleep; None when the readings run out
      first. */
  function WaitRounds(timeout: int, elapsed: int, readings: seq<int>): (r: Option<nat>)
    ensures r.Some? ==> r.value <= |readings|
    ensures timeout == -1 ==> r.None?
    decreases |readings|
  {
    if !KeepWaiting(timeout, elapsed) then Some(0)
    else if readings == [] then None
    else
      var rest := WaitRounds(timeout, readings[0], readings[1..]);
      if rest.None? then None else Some(rest.value + 1)
  }

  /** The wait ends exactly at the first reading that reaches the timeout
      (or at once when the elapsed time already does). */
  lemma {:induction false} WaitRoundsFirstReached(timeout: int, elapsed: int, readings: seq<int>)
    requires KeepWaiting(timeout, elapsed)
    ensures var r := WaitRounds(timeout, elapsed, readings);
            r.Some? ==> 1 <= r.value && !KeepWaiting(timeout, readings[r.value - 1]) &&
                        forall j :: 0 <= j < r.value - 1 ==> KeepWaiting(timeout, readings[j])
    ensures WaitRounds(timeout, elapsed, readings).None? ==> forall j :: 0 <= j < |readings| ==> KeepWaiting(timeout, readings[j])
    decreases |readings|
  {
    if readings != [] && KeepWaiting(timeout, readings[0]) {
      WaitRoundsFirstReached(timeout, readings[0], readings[1..]);
      var rest := WaitRounds(timeout, readings[0], readings[1..]);
      if rest.Some? {
        assert forall j :: 1 <= j < rest.value ==> readings[j] == readings[1..][j - 1];
      }
    }
  }

  /** How main ends: its exit code, the URL it opened, the zone path the
      worker attached to, how many wait rounds it took and the worker's state. */
  datatype ThreadResult = ThreadResult(code: int, stageUrl: string, attachPath: Option<string>, waitRounds: Option<nat>,
                                       workerStopped: bool, workerStep: int, runLimit: int)

  /** main. `didOpen` is whether the stage opens, `readings` the elapsed
      seconds after each five-second sleep, `rounds` how many rounds the
      worker completes while main waits, `cos` the math library's cosine.
      A wait that does not end within the readings leaves the worker running. */
  method SensorThreadMain(argv: seq<string>, didOpen: bool, readings: seq<int>, rounds: nat, cos: int -> real)
    returns (r: ThreadResult)
    ensures |argv| != 4 ==> r.code == -1 && r.attachPath.None?
    ensures |argv| == 4 ==>
      (r.code == 1 <==> !didOpen)
    ensures |argv| == 4 && didOpen ==>
      r.code == 0 && r.stageUrl == argv[1] + StageName &&
      r.attachPath == Some(AttachPath(Atoi(argv[2]))) &&
      r.runLimit == Atoi(argv[3]) &&
      r.waitRounds == WaitRounds(Atoi(argv[3]), 0, readings) &&
      (r.workerStopped <==> r.waitRounds.Some?) &&
      r.workerStep == StepAfter(0, rounds) && ValidStep(r.workerStep)
  {
    if |argv| != 4 {
      return ThreadResult(-1, "", None, None, false, 0, -1);
    }
    var stageUrl := argv[1];
    var threadNumber := Atoi(argv[2]);
    var timeout := Atoi(argv[3]);
    stageUrl := stageUrl + StageName;
    var newStageUrl := OpenOmniverseModel(stageUrl, didOpen);
    OpenFailsIffEmpty(argv[1], didOpen);
    if |newStageUrl| == 0 {
      return ThreadResult(1, stageUrl, None, None, false, 0, -1);
    }
    var w := new DataStageWriterWorker();
    w.zone := threadNumber;
    var path := AttachPath(threadNumber);
    w.runLimit := timeout;
    w.DoWork(rounds, cos);
    DoWorkKeepsStepValid(0, rounds);
    var waited := WaitLoop(timeout, readings);
    if waited.Some? {
      w.stopped := true;
    }
    return ThreadResult(0, newStageUrl, Some(path), waited, w.stopped, w.step, w.runLimit);
  }

  /** The wait loop itself, over the readings. */
  method WaitLoop(timeout: int, readings: seq<int>) returns (r: Option<nat>)
    ensures r == WaitRounds(timeout, 0, readings)
  {
    var elapsedTime := 0;
    var k := 0;
    while KeepWaiting(timeout, elapsedTime) && k < |readings|
      invariant 0 <= k <= |readings|
      invariant k > 0 ==> elapsedTime == readings[k - 1]
      invariant k == 0 ==> elapsedTime == 0
      invariant KeepWaiting(timeout, elapsedTime) || k == 0 ==> WaitRoundsFrom(timeout, readings, k)
      invariant !KeepWaiting(timeout, elapsedTime) ==> WaitRounds(timeout, 0, readings) == Some(k)
    {
      WaitRoundsStep(timeout, readings, k);
      elapsedTime := readings[k];
      k := k + 1;
    }
    if KeepWaiting(timeout, elapsedTime) {
      WaitRoundsExhausted(timeout, readings, k);
      return None;
    }
    return Some(k);
  }

  /** While the wait goes on after k readings, the loop's remaining rounds
      are those of the rest of the readings. */
  ghost predicate WaitRoundsFrom(timeout: int, readings: seq<int>, k: nat)
    requires k <= |readings|
  {
    var e := if k == 0 then 0 else readings[k - 1];
    var rest := WaitRounds(timeout, e, readings[k..]);
    WaitRounds(timeout, 0, readings) == (if rest.None? then None else Some(rest.value + k))
  }

  lemma WaitRoundsStep(timeout: int, readings: seq<int>, k: nat)
    requires k < |readings| && WaitRoundsFrom(timeout, readings, k)
    requires KeepWaiting(timeout, if k == 0 then 0 else readings[k - 1])
    ensures WaitRoundsFrom(timeout, readings, k + 1)
    ensures !KeepWaiting(timeout, readings[k]) ==> WaitRounds(timeout, 0, readings) == Some(k + 1)
  {
    assert readings[k..][0] == readings[k] && readings[k..][1..] == readings[k + 1..];
  }

  lemma WaitRoundsExhausted(timeout: int, readings: seq<int>, k: nat)
    requires k == |readings| && WaitRoundsFrom(timeout, readings, k)
    requires KeepWaiting(timeout, if k == 0 then 0 else readings[k - 1])
    ensures WaitRounds(timeout, 0, readings).None?
  {
    assert readings[k..] == [];
  }

  /** With timeout -1 main never stops the worker; with a timeout of 0 or
      less (other than -1) it stops it without waiting. */
  lemma WaitBounds(timeout: int, readings: seq<int>)
    ensures timeout == -1 ==> WaitRounds(timeout, 0, readings).None?
    ensures timeout != -1 && timeout <= 0 ==> WaitRounds(timeout, 0, readings) == Some(0)
  {
  }
}
