/**
 * The two reception units that run the full pipeline on a whole dataset:
 * the threaded one (`unite_reception_threads.py`), which polls for the
 * received dataset and processes it once, and the single-shot script
 * (`Unite_reception.py`), which halves by slicing.
 */
module Reception {
  import opened Py
  import opened PipeFilter
  import opened Batches
  import opened Workers

  const InputFile := "Pipe-Filter/dataset.csv"
  const OutputFile := "Pipe-Filter/dataset_traite.csv"

  /** Where the threaded unit is: still polling, done with a saved table, or blocked on an empty queue. */
  datatype Outcome = Polling | Saved(file: string, rows: seq<Record>) | Hung

  /**
   * The outcome of processing one dataset text with two threads on the
   * `array_split` halves.
   */
  function ProcessDataset(text: string, readCsv: string -> seq<Record>, num: Numerics): (o: Outcome)
    ensures o.Saved? || o.Hung?
    ensures o.Saved? <==> forall k :: 0 <= k < |readCsv(text)| ==> Validate(readCsv(text)[k], num).Ok?
    ensures o.Saved? ==> o.file == OutputFile && o.rows == []
  {
    HalvingIsTransparent(FullPipeline, readCsv(text), num);
    FullPipelineOutputsNothing(readCsv(text), num);
    match ProcessArraySplit(FullPipeline, readCsv(text), num)
    case Ok(out) => Saved(OutputFile, out)
    case Raise(_) => Hung
  }

  /** The first existence check, from the `from`-th on, that sees the dataset. */
  function FirstWithInput(snapshots: seq<map<string, string>>, from: nat): (j: Option<nat>)
    requires from <= |snapshots|
    ensures j.Some? ==> from <= j.value < |snapshots| && InputFile in snapshots[j.value]
    ensures j.Some? ==> forall l :: from <= l < j.value ==> InputFile !in snapshots[l]
    ensures j.None? <==> forall l :: from <= l < |snapshots| ==> InputFile !in snapshots[l]
    decreases |snapshots| - from
  {
    if from == |snapshots| then None
    else if InputFile in snapshots[from] then Some(from)
    else FirstWithInput(snapshots, from + 1)
  }

  /**
   * The `while True` loop of the threaded unit. `snapshots[j]` is the
   * directory as the `j`-th existence check sees it: the loop polls until
   * the dataset exists, processes that text once and breaks; while it is
   * absent the unit keeps polling.
   */
  method RunThreadedReception(snapshots: seq<map<string, string>>, readCsv: string -> seq<Record>, num: Numerics)
    returns (polls: nat, outcome: Outcome)
    ensures match FirstWithInput(snapshots, 0)
      case None => polls == |snapshots| && outcome == Polling
      case Some(j) => polls == j + 1 && outcome == ProcessDataset(snapshots[j][InputFile], readCsv, num)
  {
    polls := 0;
    outcome := Polling;
    while polls < |snapshots|
      invariant polls <= |snapshots|
      invariant FirstWithInput(snapshots, 0) == FirstWithInput(snapshots, polls)
      invariant outcome.Polling?
    {
      var files := snapshots[polls];
      polls := polls + 1;
      if InputFile in files {
        outcome := ProcessReceived(files[InputFile], readCsv, num);
        break;
      }
    }
  }

  /**
   * The body of the polling loop once the dataset exists: read it, halve
   * it, one worker per half, wait for both queues, merge and save.
   */
  method ProcessReceived(text: string, readCsv: string -> seq<Record>, num: Numerics) returns (outcome: Outcome)
    ensures outcome == ProcessDataset(text, readCsv, num)
    ensures !outcome.Polling?
  {
    var rows := readCsv(text);
    var (part1, part2) := ArraySplitHalves(rows);
    var queue1 := TraiterPartie(FullPipeline, part1, num);
    var queue2 := TraiterPartie(FullPipeline, part2, num);
    if queue1.Raise? || queue2.Raise? {
      return Hung;
    }
    var merged := queue1.value + queue2.value;
    outcome := Saved(OutputFile, DropNone(merged));
  }

  /**
   * `Unite_reception.py` on the rows of its input file: halves at
   * `len // 2`, each mapped record by record, merged and the `None` results
   * dropped. With the full pipeline nothing is left; an exception aborts
   * the script before it writes.
   */
  function ReceptionScript(rows: seq<Record>, num: Numerics): (out: Result<seq<Record>>)
    ensures out.Ok? <==> forall k :: 0 <= k < |rows| ==> Validate(rows[k], num).Ok?
    ensures out.Ok? ==> out.value == []
  {
    HalvingIsTransparent(FullPipeline, rows, num);
    FullPipelineOutputsNothing(rows, num);
    ProcessSliced(FullPipeline, rows, num)
  }
}
