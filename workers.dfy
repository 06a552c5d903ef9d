/**
 * The processing step shared by the reception units: a batch cut in two,
 * each part run record by record through its own pipeline (`traiter_partie`),
 * the results concatenated in part order and the `None` results dropped.
 */
module Workers {
  import opened Py
  import opened PipeFilter
  import opened Batches

  /** `traiter_partie`: the pipeline applied to each record of a part, in order. */
  function TraiterPartie(fs: seq<Filter>, part: seq<Record>, num: Numerics): (r: Result<seq<Option<Record>>>)
    ensures r.Ok? <==> forall k :: 0 <= k < |part| ==> Apply(fs, part[k], num).Ok?
    ensures r.Ok? ==> |r.value| == |part|
    ensures r.Ok? ==> forall k :: 0 <= k < |part| ==> r.value[k] == Apply(fs, part[k], num).value
  {
    MapAll((d: Record) => Apply(fs, d, num), part)
  }

  /**
   * Two workers on two parts, then the merge: part 1's results followed by
   * part 2's, without the `None` entries. A worker that raises never fills
   * its queue, which the caller sees as `Raise`.
   */
  function MergeParts(fs: seq<Filter>, part1: seq<Record>, part2: seq<Record>, num: Numerics)
    : Result<seq<Record>>
  {
    var r1 :- TraiterPartie(fs, part1, num);
    var r2 :- TraiterPartie(fs, part2, num);
    Ok(DropNone(r1 + r2))
  }

  /** The batch processed unsplit: one pass over all records, then the `None` results dropped. */
  function ProcessWhole(fs: seq<Filter>, rows: seq<Record>, num: Numerics): Result<seq<Record>>
  {
    var r :- TraiterPartie(fs, rows, num);
    Ok(DropNone(r))
  }

  /** Splitting at any point and merging gives what one pass over the whole batch gives. */
  lemma MergeIsWhole(fs: seq<Filter>, part1: seq<Record>, part2: seq<Record>, num: Numerics)
    ensures MergeParts(fs, part1, part2, num) == ProcessWhole(fs, part1 + part2, num)
  {
    var f := (d: Record) => Apply(fs, d, num);
    MapAllConcat(f, part1, part2);
    var r1, r2 := MapAll(f, part1), MapAll(f, part2);
    if r1.Ok? && r2.Ok? {
      DropNoneConcat(r1.value, r2.value);
    }
  }

  /** The threaded units: halves by `np.array_split(rows, 2)`. */
  function ProcessArraySplit(fs: seq<Filter>, rows: seq<Record>, num: Numerics): Result<seq<Record>>
  {
    var (part1, part2) := ArraySplitHalves(rows);
    MergeParts(fs, part1, part2, num)
  }

  /** `Unite_reception.py`: halves by slicing at `len(rows) // 2`. */
  function ProcessSliced(fs: seq<Filter>, rows: seq<Record>, num: Numerics): Result<seq<Record>>
  {
    var (part1, part2) := SliceHalves(rows);
    MergeParts(fs, part1, part2, num)
  }

  /** Both halving rules give the same output as processing the batch unsplit. */
  lemma HalvingIsTransparent(fs: seq<Filter>, rows: seq<Record>, num: Numerics)
    ensures ProcessArraySplit(fs, rows, num) == ProcessWhole(fs, rows, num)
    ensures ProcessSliced(fs, rows, num) == ProcessWhole(fs, rows, num)
  {
    var (a1, a2) := ArraySplitHalves(rows);
    MergeIsWhole(fs, a1, a2, num);
    var (s1, s2) := SliceHalves(rows);
    MergeIsWhole(fs, s1, s2, num);
  }

  /**
   * The full three-filter pipeline yields `None` for every record, so the
   * output has no rows; it raises exactly when some record's validation
   * raises.
   */
  lemma FullPipelineOutputsNothing(rows: seq<Record>, num: Numerics)
    ensures ProcessWhole(FullPipeline, rows, num).Ok? <==> forall k :: 0 <= k < |rows| ==> Validate(rows[k], num).Ok?
    ensures ProcessWhole(FullPipeline, rows, num).Ok? ==> ProcessWhole(FullPipeline, rows, num).value == []
  {
    forall k | 0 <= k < |rows|
      ensures Apply(FullPipeline, rows[k], num).Ok? <==> Validate(rows[k], num).Ok?
      ensures Apply(FullPipeline, rows[k], num).Ok? ==> Apply(FullPipeline, rows[k], num).value.None?
    {
      FullPipelineOutcome(rows[k], num);
    }
    var r := TraiterPartie(FullPipeline, rows, num);
    if r.Ok? {
      DropNoneAllNone(r.value);
    }
  }

  /**
   * A pipeline without validation yields one record per input record, in
   * order: each the composition of the filters applied to that record.
   */
  lemma NoValidationKeepsEveryRecord(fs: seq<Filter>, rows: seq<Record>, num: Numerics)
    requires Validation !in fs
    ensures ProcessWhole(fs, rows, num).Ok? <==> forall k :: 0 <= k < |rows| ==> Compose(fs, rows[k], num).Ok?
    ensures var out := ProcessWhole(fs, rows, num);
      out.Ok? ==> |out.value| == |rows| && forall k :: 0 <= k < |rows| ==> out.value[k] == Compose(fs, rows[k], num).value
  {
    forall k | 0 <= k < |rows|
      ensures Apply(fs, rows[k], num) == AsSome(Compose(fs, rows[k], num))
    {
      NoValidationIsComposition(fs, rows[k], num);
    }
    var r := TraiterPartie(fs, rows, num);
    if r.Ok? {
      DropNoneNoNone(r.value);
    }
  }
}
