/**
 * The passive unit's loop (`Unite_passive/unite_reception_threads.py`).
 * Each round, once `dataset.csv` exists, it runs the full pipeline on it and
 * saves `dataset_traite.csv`; then it looks at the checkpoint files left by
 * a failed active unit and, for the first checkpoint whose successor does
 * not appear within a short probe, runs the remaining filters on it, saves
 * `dataset_traite_active.csv` and leaves the loop.
 */
module PassiveUnit {
  import opened Py
  import opened PipeFilter
  import opened Batches
  import opened Workers
  import opened CheckpointSplit

  const DatasetFile := "dataset.csv"
  const TraiteFile := "dataset_traite.csv"
  const ActiveFile := "dataset_traite_active.csv"

  /** How long a probe keeps looking, in seconds; it sleeps one second between looks. */
  const ProbeTimeout: real := 0.1

  /**
   * The readings of `time.time()` one probe takes: the start time, then one
   * reading per loop test. A sleep of one second separates the tests.
   */
  ghost predicate ClockOk(clock: seq<real>)
  {
    && |clock| >= 3
    && clock[0] <= clock[1]
    && (forall j :: 1 <= j < |clock| - 1 ==> clock[j] + 1.0 <= clock[j + 1])
  }

  /** Whether the first loop test still falls inside the probe's window. */
  predicate InWindow(clock: seq<real>)
    requires |clock| >= 2
  {
    clock[1] - clock[0] < ProbeTimeout
  }

  /**
   * The bounded wait for a checkpoint file: test the clock, look for the
   * file, sleep a second. The sleep outlasts the window, so at most one
   * look happens.
   */
  method Probe(files: map<string, string>, name: string, clock: seq<real>) returns (found: bool, looks: nat)
    requires ClockOk(clock)
    ensures looks <= 1
    ensures looks == 1 <==> InWindow(clock)
    ensures found <==> InWindow(clock) && name in files
  {
    var start := clock[0];
    var r := 1;
    found := false;
    looks := 0;
    while clock[r] - start < ProbeTimeout
      invariant 1 <= r <= 2
      invariant looks == r - 1 && !found
      invariant r == 2 ==> clock[1] - start < ProbeTimeout && name !in files && clock[r] - start >= 1.0
      decreases 2 - r
    {
      looks := looks + 1;
      if name in files {
        found := true;
        break;
      }
      r := r + 1;
    }
  }

  /** What the unit does, in order, that the model observes. */
  datatype Step =
    | Checked(name: string, present: bool)
    | SplitRun(exitCode: int)
    | Saved(name: string, rows: seq<Record>)

  /** How a round ends: back to the top of the loop, out of it, or blocked on an empty queue. */
  datatype Next = Continue | Break | Hang

  /**
   * One round's environment: the directory as the round sees it, the exit
   * status of `python split.py`, and the clock readings of the stage-2,
   * stage-3 and stage-1 probes.
   */
  datatype Env = Env(files: map<string, string>, splitExit: int,
                     clock2: seq<real>, clock3: seq<real>, clock1: seq<real>)
  {
    ghost predicate Valid() { ClockOk(clock2) && ClockOk(clock3) && ClockOk(clock1) }
  }

  /** A block's effect: its steps, whether it leaves the loop, the directory after it and `i`. */
  datatype Block = Block(steps: seq<Step>, stop: Option<Next>, files: map<string, string>, i: int)

  /** A round's effect: its steps, how it ends and `i` afterwards. */
  datatype RoundResult = RoundResult(steps: seq<Step>, next: Next, i: int)

  /** The look a probe makes, if any. */
  function ProbeSteps(files: map<string, string>, name: string, clock: seq<real>): seq<Step>
    requires |clock| >= 2
  {
    if InWindow(clock) then [Checked(name, name in files)] else []
  }

  /**
   * The recovery at the end of a "not found" branch: the remaining filters
   * on the checkpoint's records, two workers, the merged output saved to
   * `dataset_traite_active.csv`, and `break`.
   */
  function Recover(steps: seq<Step>, fs: seq<Filter>, text: string, files: map<string, string>, i: int,
                   readCsv: string -> seq<Record>, num: Numerics): (b: Block)
    ensures b.stop.Some? && b.stop.value != Continue && b.files == files && b.i == i
    ensures b.stop == Some(Break) ==> ProcessWhole(fs, readCsv(text), num).Ok?
    ensures b.stop == Some(Break) ==> b.steps == steps + [Saved(ActiveFile, ProcessWhole(fs, readCsv(text), num).value)]
    ensures b.stop == Some(Hang) ==> b.steps == steps && ProcessWhole(fs, readCsv(text), num).Raise?
  {
    HalvingIsTransparent(fs, readCsv(text), num);
    match ProcessArraySplit(fs, readCsv(text), num)
    case Raise(_) => Block(steps, Some(Hang), files, i)
    case Ok(out) => Block(steps + [Saved(ActiveFile, out)], Some(Break), files, i)
  }

  /** Lines 72-146: the stage-1 checkpoint, the split, the stage-2 probe and the recovery from stage 1. */
  function StageOne(env: Env, i: int, readCsv: string -> seq<Record>, num: Numerics): Block
    requires env.Valid()
  {
    var files := env.files;
    if Stage1File !in files then Block([Checked(Stage1File, false)], None, files, i)
    else
      var pre := [Checked(Stage1File, true), Checked(Stage1File, true), SplitRun(env.splitExit)];
      if env.splitExit != 0 then Block(pre, None, files, i)
      else
        var split := SplitScript(files).value;
        var looked := pre + ProbeSteps(split, Stage2File, env.clock2);
        if InWindow(env.clock2) && Stage2File in split then Block(looked, None, split, 1)
        else Recover(looked, [Normalisation, Transformation], split[Stage1File], split, i, readCsv, num)
  }

  /** Lines 149-217: the stage-2 checkpoint, the stage-3 probe and the recovery from stage 2. */
  function StageTwo(env: Env, files: map<string, string>, i: int, readCsv: string -> seq<Record>, num: Numerics): Block
    requires env.Valid()
  {
    if Stage2File !in files then Block([Checked(Stage2File, false)], None, files, i)
    else
      var looked := [Checked(Stage2File, true)] + ProbeSteps(files, Stage3File, env.clock3);
      if InWindow(env.clock3) && Stage3File in files then Block(looked, None, files, 2)
      else Recover(looked, [Transformation], files[Stage2File], files, i, readCsv, num)
  }

  /** Lines 219-244: the stage-3 checkpoint, the stage-1 probe and the copy of stage 3. */
  function StageThree(env: Env, files: map<string, string>, i: int, readCsv: string -> seq<Record>): Block
    requires env.Valid()
  {
    if Stage3File !in files then Block([Checked(Stage3File, false)], None, files, i)
    else
      var looked := [Checked(Stage3File, true)] + ProbeSteps(files, Stage1File, env.clock1);
      if InWindow(env.clock1) && Stage1File in files then Block(looked, None, files, 3)
      else Block(looked + [Saved(ActiveFile, readCsv(files[Stage3File]))], Some(Break), files, i)
  }

  /** The checkpoint blocks one after the other, each run only if the previous one did not leave the loop. */
  function Checkpoints(env: Env, i: int, readCsv: string -> seq<Record>, num: Numerics): RoundResult
    requires env.Valid()
  {
    var b1 := StageOne(env, i, readCsv, num);
    if b1.stop.Some? then RoundResult(b1.steps, b1.stop.value, b1.i)
    else
      var b2 := StageTwo(env, b1.files, b1.i, readCsv, num);
      if b2.stop.Some? then RoundResult(b1.steps + b2.steps, b2.stop.value, b2.i)
      else
        var b3 := StageThree(env, b2.files, b2.i, readCsv);
        RoundResult(b1.steps + b2.steps + b3.steps, if b3.stop.Some? then b3.stop.value else Continue, b3.i)
  }

  /**
   * One pass of the `while True` body. Nothing is looked at but
   * `dataset.csv` until it exists.
   */
  function Round(env: Env, i: int, readCsv: string -> seq<Record>, num: Numerics): RoundResult
    requires env.Valid()
  {
    if DatasetFile !in env.files then RoundResult([Checked(DatasetFile, false)], Continue, i)
    else
      match ProcessArraySplit(FullPipeline, readCsv(env.files[DatasetFile]), num)
      case Raise(_) => RoundResult([Checked(DatasetFile, true)], Hang, i)
      case Ok(out) =>
        var rest := Checkpoints(env, i, readCsv, num);
        RoundResult([Checked(DatasetFile, true), Saved(TraiteFile, out)] + rest.steps, rest.next, rest.i)
  }

  /** The loop over the rounds from the `from`-th on, until one of them leaves it. */
  function Run(rounds: seq<Env>, from: nat, i: int, readCsv: string -> seq<Record>, num: Numerics): RoundResult
    requires from <= |rounds|
    requires forall k :: 0 <= k < |rounds| ==> rounds[k].Valid()
    decreases |rounds| - from
  {
    if from == |rounds| then RoundResult([], Continue, i)
    else
      var r := Round(rounds[from], i, readCsv, num);
      if r.next != Continue then r
      else
        var rest := Run(rounds, from + 1, r.i, readCsv, num);
        RoundResult(r.steps + rest.steps, rest.next, rest.i)
  }

  /** The stage-1 block with its split and probe. */
  method RunStageOne(env: Env, i: int, readCsv: string -> seq<Record>, num: Numerics) returns (b: Block)
    requires env.Valid()
    ensures b == StageOne(env, i, readCsv, num)
  {
    var files := env.files;
    if Stage1File !in files {
      return Block([Checked(Stage1File, false)], None, files, i);
    }
    var steps := [Checked(Stage1File, true), Checked(Stage1File, true), SplitRun(env.splitExit)];
    if env.splitExit != 0 {
      return Block(steps, None, files, i);
    }
    files := SplitScript(files).value;
    var fileFound, looks := Probe(files, Stage2File, env.clock2);
    if looks == 1 {
      steps := steps + [Checked(Stage2File, Stage2File in files)];
    }
    if fileFound {
      return Block(steps, None, files, 1);
    }
    b := Recover(steps, [Normalisation, Transformation], files[Stage1File], files, i, readCsv, num);
  }

  /** The stage-2 block with its probe. */
  method RunStageTwo(env: Env, files: map<string, string>, i: int, readCsv: string -> seq<Record>, num: Numerics)
    returns (b: Block)
    requires env.Valid()
    ensures b == StageTwo(env, files, i, readCsv, num)
  {
    if Stage2File !in files {
      return Block([Checked(Stage2File, false)], None, files, i);
    }
    var steps := [Checked(Stage2File, true)];
    var fileFound, looks := Probe(files, Stage3File, env.clock3);
    if looks == 1 {
      steps := steps + [Checked(Stage3File, Stage3File in files)];
    }
    if fileFound {
      return Block(steps, None, files, 2);
    }
    b := Recover(steps, [Transformation], files[Stage2File], files, i, readCsv, num);
  }

  /** The stage-3 block with its probe. */
  method RunStageThree(env: Env, files: map<string, string>, i: int, readCsv: string -> seq<Record>)
    returns (b: Block)
    requires env.Valid()
    ensures b == StageThree(env, files, i, readCsv)
  {
    if Stage3File !in files {
      return Block([Checked(Stage3File, false)], None, files, i);
    }
    var steps := [Checked(Stage3File, true)];
    var fileFound, looks := Probe(files, Stage1File, env.clock1);
    if looks == 1 {
      steps := steps + [Checked(Stage1File, Stage1File in files)];
    }
    if fileFound {
      return Block(steps, None, files, 3);
    }
    b := Block(steps + [Saved(ActiveFile, readCsv(files[Stage3File]))], Some(Break), files, i);
  }

  /** The checkpoint blocks of one round. */
  method RunCheckpoints(env: Env, i: int, readCsv: string -> seq<Record>, num: Numerics) returns (r: RoundResult)
    requires env.Valid()
    ensures r == Checkpoints(env, i, readCsv, num)
  {
    var b1 := RunStageOne(env, i, readCsv, num);
    if b1.stop.Some? {
      return RoundResult(b1.steps, b1.stop.value, b1.i);
    }
    var b2 := RunStageTwo(env, b1.files, b1.i, readCsv, num);
    if b2.stop.Some? {
      return RoundResult(b1.steps + b2.steps, b2.stop.value, b2.i);
    }
    var b3 := RunStageThree(env, b2.files, b2.i, readCsv);
    r := RoundResult(b1.steps + b2.steps + b3.steps, if b3.stop.Some? then b3.stop.value else Continue, b3.i);
  }

  /** One pass of the loop body: the dataset check, the full pipeline, then the checkpoints. */
  method RunRound(env: Env, i: int, readCsv: string -> seq<Record>, num: Numerics) returns (r: RoundResult)
    requires env.Valid()
    ensures r == Round(env, i, readCsv, num)
  {
    if DatasetFile !in env.files {
      return RoundResult([Checked(DatasetFile, false)], Continue, i);
    }
    var main := ProcessArraySplit(FullPipeline, readCsv(env.files[DatasetFile]), num);
    if main.Raise? {
      return RoundResult([Checked(DatasetFile, true)], Hang, i);
    }
    var rest := RunCheckpoints(env, i, readCsv, num);
    r := RoundResult([Checked(DatasetFile, true), Saved(TraiteFile, main.value)] + rest.steps, rest.next, rest.i);
  }

  /**
   * The passive unit's `while True` loop over the rounds the environment
   * provides; it stops at the first round that breaks out or blocks.
   */
  method RunPassiveUnit(rounds: seq<Env>, readCsv: string -> seq<Record>, num: Numerics)
    returns (steps: seq<Step>, next: Next, i: int)
    requires forall k :: 0 <= k < |rounds| ==> rounds[k].Valid()
    ensures RoundResult(steps, next, i) == Run(rounds, 0, 0, readCsv, num)
  {
    steps, next, i := [], Continue, 0;
    var k := 0;
    while k < |rounds|
      invariant 0 <= k <= |rounds|
      invariant var rest := Run(rounds, k, i, readCsv, num);
        Run(rounds, 0, 0, readCsv, num) == RoundResult(steps + rest.steps, rest.next, rest.i)
    {
      var r := RunRound(rounds[k], i, readCsv, num);
      if r.next != Continue {
        steps, next, i := steps + r.steps, r.next, r.i;
        return;
      }
      var after := Run(rounds, k + 1, r.i, readCsv, num);
      assert steps + (r.steps + after.steps) == (steps + r.steps) + after.steps;
      steps, i := steps + r.steps, r.i;
      k := k + 1;
    }
  }

  /** Every round starts by looking for `dataset.csv`; without it nothing else is looked at. */
  lemma DatasetCheckedFirst(env: Env, i: int, readCsv: string -> seq<Record>, num: Numerics)
    requires env.Valid()
    ensures var r := Round(env, i, readCsv, num);
      |r.steps| >= 1 && r.steps[0] == Checked(DatasetFile, DatasetFile in env.files)
    ensures DatasetFile !in env.files ==> Round(env, i, readCsv, num) == RoundResult([Checked(DatasetFile, false)], Continue, i)
  {
  }

  /**
   * With the dataset present, the round blocks exactly when a record's
   * validation raises; otherwise `dataset_traite.csv` is saved with no rows.
   */
  lemma MainOutputEmpty(env: Env, i: int, readCsv: string -> seq<Record>, num: Numerics)
    requires env.Valid() && DatasetFile in env.files
    ensures var rows := readCsv(env.files[DatasetFile]);
      var r := Round(env, i, readCsv, num);
      && (r.next == Hang && r.steps == [Checked(DatasetFile, true)]
          <==> exists k :: 0 <= k < |rows| && Validate(rows[k], num).Raise?)
      && ((forall k :: 0 <= k < |rows| ==> Validate(rows[k], num).Ok?) ==> |r.steps| >= 2 && r.steps[1] == Saved(TraiteFile, []))
  {
    var rows := readCsv(env.files[DatasetFile]);
    HalvingIsTransparent(FullPipeline, rows, num);
    FullPipelineOutputsNothing(rows, num);
    if ProcessArraySplit(FullPipeline, rows, num).Ok? {
      var rest := Checkpoints(env, i, readCsv, num);
      assert Round(env, i, readCsv, num).steps == [Checked(DatasetFile, true), Saved(TraiteFile, [])] + rest.steps;
    }
  }

  /** A failed split skips the stage-2 probe and the recovery; the round goes on to stage 2. */
  lemma SplitFailureSkipsProbe(env: Env, i: int, readCsv: string -> seq<Record>, num: Numerics)
    requires env.Valid() && Stage1File in env.files && env.splitExit != 0
    ensures StageOne(env, i, readCsv, num)
      == Block([Checked(Stage1File, true), Checked(Stage1File, true), SplitRun(env.splitExit)], None, env.files, i)
  {
  }

  /**
   * When stage 2 does not show up after a successful split, the stage-1
   * records get normalisation then transformation: the round blocks if one
   * of them raises, and otherwise saves one result per record, in order, to
   * `dataset_traite_active.csv` and leaves the loop.
   */
  lemma StageOneRecovery(env: Env, i: int, readCsv: string -> seq<Record>, num: Numerics)
    requires env.Valid() && Stage1File in env.files && env.splitExit == 0
    requires var split := SplitScript(env.files).value;
      !(InWindow(env.clock2) && Stage2File in split)
    ensures var split := SplitScript(env.files).value;
      var rows := readCsv(split[Stage1File]);
      var b := StageOne(env, i, readCsv, num);
      && b.stop.Some? && b.i == i
      && (b.stop == Some(Break) <==> forall k :: 0 <= k < |rows| ==> Compose([Normalisation, Transformation], rows[k], num).Ok?)
      && (b.stop == Some(Break) ==>
            && SavesActiveLast(b.steps)
            && |b.steps[|b.steps| - 1].rows| == |rows|
            && (forall k :: 0 <= k < |rows| ==>
                  b.steps[|b.steps| - 1].rows[k] == Compose([Normalisation, Transformation], rows[k], num).value))
  {
    var split := SplitScript(env.files).value;
    NoValidationKeepsEveryRecord([Normalisation, Transformation], readCsv(split[Stage1File]), num);
  }

  /** When the stage-2 probe finds its file, `i` is set to 1 and the round goes on with the split's directory. */
  lemma StageOneFound(env: Env, i: int, readCsv: string -> seq<Record>, num: Numerics)
    requires env.Valid() && Stage1File in env.files && env.splitExit == 0
    requires InWindow(env.clock2) && Stage2File in SplitScript(env.files).value
    ensures var b := StageOne(env, i, readCsv, num);
      b.stop.None? && b.i == 1 && b.files == SplitScript(env.files).value
  {
  }

  /**
   * When stage 3 does not show up, the stage-2 records get the transformation
   * alone, one result per record, in order.
   */
  lemma StageTwoRecovery(env: Env, files: map<string, string>, i: int, readCsv: string -> seq<Record>, num: Numerics)
    requires env.Valid() && Stage2File in files
    requires !(InWindow(env.clock3) && Stage3File in files)
    ensures var rows := readCsv(files[Stage2File]);
      var b := StageTwo(env, files, i, readCsv, num);
      && b.stop.Some? && b.i == i
      && (b.stop == Some(Break) <==> forall k :: 0 <= k < |rows| ==> Compose([Transformation], rows[k], num).Ok?)
      && (b.stop == Some(Break) ==>
            && SavesActiveLast(b.steps)
            && |b.steps[|b.steps| - 1].rows| == |rows|
            && (forall k :: 0 <= k < |rows| ==>
                  b.steps[|b.steps| - 1].rows[k] == Compose([Transformation], rows[k], num).value))
  {
    NoValidationKeepsEveryRecord([Transformation], readCsv(files[Stage2File]), num);
  }

  /**
   * When stage 1 does not show up again after stage 3, the stage-3 records
   * are saved unchanged and the loop ends.
   */
  lemma StageThreeCopies(env: Env, files: map<string, string>, i: int, readCsv: string -> seq<Record>)
    requires env.Valid() && Stage3File in files
    requires !(InWindow(env.clock1) && Stage1File in files)
    ensures var b := StageThree(env, files, i, readCsv);
      && b.stop == Some(Break) && b.i == i
      && |b.steps| >= 2 && b.steps[0] == Checked(Stage3File, true)
      && b.steps[|b.steps| - 1] == Saved(ActiveFile, readCsv(files[Stage3File]))
  {
  }

  /** The last step saves `dataset_traite_active.csv`. */
  predicate SavesActiveLast(steps: seq<Step>)
  {
    |steps| >= 1 && steps[|steps| - 1].Saved? && steps[|steps| - 1].name == ActiveFile
  }

  lemma SavesActiveLastAppend(pre: seq<Step>, steps: seq<Step>)
    requires SavesActiveLast(steps)
    ensures SavesActiveLast(pre + steps)
  {
    assert (pre + steps)[|pre + steps| - 1] == steps[|steps| - 1];
  }

  /** The checkpoint blocks leave the loop only by saving `dataset_traite_active.csv` last. */
  lemma CheckpointsBreakSavesActive(env: Env, i: int, readCsv: string -> seq<Record>, num: Numerics)
    requires env.Valid()
    ensures var r := Checkpoints(env, i, readCsv, num);
      r.next == Break ==> SavesActiveLast(r.steps)
  {
    var b1 := StageOne(env, i, readCsv, num);
    if b1.stop.None? {
      var b2 := StageTwo(env, b1.files, b1.i, readCsv, num);
      if b2.stop.Some? {
        if b2.stop == Some(Break) {
          SavesActiveLastAppend(b1.steps, b2.steps);
        }
      } else {
        var b3 := StageThree(env, b2.files, b2.i, readCsv);
        if b3.stop == Some(Break) {
          SavesActiveLastAppend(b1.steps + b2.steps, b3.steps);
        }
      }
    }
  }

  /** A round that leaves the loop has just saved `dataset_traite_active.csv`. */
  lemma BreakSavesActive(env: Env, i: int, readCsv: string -> seq<Record>, num: Numerics)
    requires env.Valid()
    ensures var r := Round(env, i, readCsv, num);
      r.next == Break ==> SavesActiveLast(r.steps)
  {
    if DatasetFile in env.files && ProcessArraySplit(FullPipeline, readCsv(env.files[DatasetFile]), num).Ok? {
      var out := ProcessArraySplit(FullPipeline, readCsv(env.files[DatasetFile]), num).value;
      var rest := Checkpoints(env, i, readCsv, num);
      CheckpointsBreakSavesActive(env, i, readCsv, num);
      if rest.next == Break {
        SavesActiveLastAppend([Checked(DatasetFile, true), Saved(TraiteFile, out)], rest.steps);
      }
    }
  }

  /** Whichever round ends the loop by `break`, the last thing done is saving `dataset_traite_active.csv`. */
  lemma {:induction false} RunBreakSavesActive(rounds: seq<Env>, from: nat, i: int,
                                               readCsv: string -> seq<Record>, num: Numerics)
    requires from <= |rounds|
    requires forall k :: 0 <= k < |rounds| ==> rounds[k].Valid()
    ensures var r := Run(rounds, from, i, readCsv, num);
      r.next == Break ==> SavesActiveLast(r.steps)
    decreases |rounds| - from
  {
    if from < |rounds| {
      var r := Round(rounds[from], i, readCsv, num);
      BreakSavesActive(rounds[from], i, readCsv, num);
      if r.next == Continue {
        var rest := Run(rounds, from + 1, r.i, readCsv, num);
        RunBreakSavesActive(rounds, from + 1, r.i, readCsv, num);
        if rest.next == Break {
          SavesActiveLastAppend(r.steps, rest.steps);
        }
      }
    }
  }

  /**
   * When every checkpoint is there and every probe finds its successor, the
   * round ends with `i == 3` and goes back to the top: the loop never stops
   * while the active unit keeps up.
   */
  lemma AllFoundContinues(env: Env, i: int, readCsv: string -> seq<Record>, num: Numerics)
    requires env.Valid() && DatasetFile in env.files && env.splitExit == 0
    requires forall k :: 0 <= k < |readCsv(env.files[DatasetFile])| ==> Validate(readCsv(env.files[DatasetFile])[k], num).Ok?
    requires Stage1File in env.files && Stage2File in env.files && Stage3File in env.files
    requires InWindow(env.clock1) && InWindow(env.clock2) && InWindow(env.clock3)
    ensures Round(env, i, readCsv, num).next == Continue && Round(env, i, readCsv, num).i == 3
  {
    var rows := readCsv(env.files[DatasetFile]);
    HalvingIsTransparent(FullPipeline, rows, num);
    FullPipelineOutputsNothing(rows, num);
  }

  /** A recovery's steps and ending do not depend on `i`. */
  lemma RecoverIgnoresI(steps: seq<Step>, fs: seq<Filter>, text: string, files: map<string, string>, i: int, j: int,
                        readCsv: string -> seq<Record>, num: Numerics)
    ensures var b, c := Recover(steps, fs, text, files, i, readCsv, num), Recover(steps, fs, text, files, j, readCsv, num);
      b.steps == c.steps && b.stop == c.stop && b.files == c.files
  {
  }

  /** `i` is only ever assigned: the stage-1 block acts the same whatever its value. */
  lemma StageOneIgnoresI(env: Env, i: int, j: int, readCsv: string -> seq<Record>, num: Numerics)
    requires env.Valid()
    ensures var b, c := StageOne(env, i, readCsv, num), StageOne(env, j, readCsv, num);
      b.steps == c.steps && b.stop == c.stop && b.files == c.files
  {
    if Stage1File in env.files && env.splitExit == 0 {
      var split := SplitScript(env.files).value;
      if !(InWindow(env.clock2) && Stage2File in split) {
        var looked := [Checked(Stage1File, true), Checked(Stage1File, true), SplitRun(env.splitExit)]
          + ProbeSteps(split, Stage2File, env.clock2);
        RecoverIgnoresI(looked, [Normalisation, Transformation], split[Stage1File], split, i, j, readCsv, num);
      }
    }
  }

  /** The stage-2 block acts the same whatever `i` holds. */
  lemma StageTwoIgnoresI(env: Env, files: map<string, string>, i: int, j: int,
                         readCsv: string -> seq<Record>, num: Numerics)
    requires env.Valid()
    ensures var b, c := StageTwo(env, files, i, readCsv, num), StageTwo(env, files, j, readCsv, num);
      b.steps == c.steps && b.stop == c.stop && b.files == c.files
  {
    if Stage2File in files && !(InWindow(env.clock3) && Stage3File in files) {
      var looked := [Checked(Stage2File, true)] + ProbeSteps(files, Stage3File, env.clock3);
      RecoverIgnoresI(looked, [Transformation], files[Stage2File], files, i, j, readCsv, num);
    }
  }

  /** The checkpoint blocks together act the same whatever `i` holds. */
  lemma CheckpointsIgnoreI(env: Env, i: int, j: int, readCsv: string -> seq<Record>, num: Numerics)
    requires env.Valid()
    ensures Checkpoints(env, i, readCsv, num).steps == Checkpoints(env, j, readCsv, num).steps
    ensures Checkpoints(env, i, readCsv, num).next == Checkpoints(env, j, readCsv, num).next
  {
    var b1, c1 := StageOne(env, i, readCsv, num), StageOne(env, j, readCsv, num);
    StageOneIgnoresI(env, i, j, readCsv, num);
    if b1.stop.None? {
      var b2, c2 := StageTwo(env, b1.files, b1.i, readCsv, num), StageTwo(env, b1.files, c1.i, readCsv, num);
      StageTwoIgnoresI(env, b1.files, b1.i, c1.i, readCsv, num);
      if b2.stop.None? {
        var b3, c3 := StageThree(env, b2.files, b2.i, readCsv), StageThree(env, b2.files, c2.i, readCsv);
        assert b3.steps == c3.steps && b3.stop == c3.stop;
      }
    }
  }

  /** `i` is only ever assigned: the steps and the ending of a round do not depend on it. */
  lemma RoundIgnoresI(env: Env, i: int, j: int, readCsv: string -> seq<Record>, num: Numerics)
    requires env.Valid()
    ensures Round(env, i, readCsv, num).steps == Round(env, j, readCsv, num).steps
    ensures Round(env, i, readCsv, num).next == Round(env, j, readCsv, num).next
  {
    CheckpointsIgnoreI(env, i, j, readCsv, num);
  }
}
