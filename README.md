# Pipe-Filter in Dafny

A model of the Pipe-Filter system for utility-meter readings. The system has
four parts:

- **The filter pipeline.** A record is a dictionary of meter fields. It passes
  through `FiltreValidation`, `FiltreNormalisation` and `FiltreTransformation`,
  threaded by `Pipeline.traiter`.
- **The dispatcher (`Repartiteur`).**
  - It splits the dataset into a one-third head share and a two-thirds tail
    share.
  - It classifies up to two peers as active and passive by address.
  - It serves each peer with a handler. On `"panne"` the handler fails over
    to the other peer; on a receive timeout it pushes a share as a 4-byte
    big-endian length frame.
- **The receiver (`repartiteur.py`).** It decodes that frame and stores the
  payload as `Pipe-Filter/dataset.csv`.
- **The reception units.**
  - The threaded unit and the single-shot script halve the dataset, run one
    pipeline per half, merge the results and drop the `None` results.
  - The passive unit does the same on `dataset.csv` each round. It then looks
    at the stage checkpoints a failing active unit leaves behind. If one of
    them shows no successor within a short probe, it runs the remaining
    filters on that checkpoint, saves `dataset_traite_active.csv` and leaves
    its loop.
  - The checkpoint splitter (`split.py`) cuts the stage-1 checkpoint at the
    later checkpoints' names and writes each non-empty piece to its own file.

Modules, one per core source file:

| module | models |
|---|---|
| `Py` | Python built-ins the code relies on: exceptions as `Result` values, Latin-1 character classes and case mappings, `split()`/`strip()`, `str(int)`, the anchored digit patterns |
| `PipeFilter` | `Pipe_filter.py` |
| `Batches` | the halving rules, `None` removal and per-record mapping shared by the reception units |
| `Workers` | `traiter_partie`, the two-worker merge, and what the full pipeline yields |
| `Framing` | the 4-byte big-endian length header (`int.to_bytes` / `int.from_bytes`) |
| `Receiver` | `repartiteur.py` |
| `Repartiteur` | `Repartiteur/Repartiteur.py` |
| `Reception` | `unite_reception_threads.py` and `Unite_reception.py` |
| `CheckpointSplit` | `Unite_passive/split.py` |
| `PassiveUnit` | `Unite_passive/unite_reception_threads.py` |

How each piece is modelled:

- **A raised Python exception** is a `Raise(exc)` value and propagates with
  `:-`.
- **A thread that raises** never fills its queue, so the main thread blocks on
  `queue.get()`. The model records this as `Hung` or `Hang`.
- **Sockets.**
  - For the receiver, a socket is a `Connection` object. It holds the bytes
    the peer writes and a segmentation oracle saying how much each `recv`
    returns.
  - For the dispatcher handlers, a socket is a sequence of receive events:
    `Msg(text)`, `Timeout`, `RecvError`, or `Eof`. `RecvError` is the
    `except Exception` path. `Eof` is `recv` returning `b''` once the peer
    has closed its end; every later `recv` then returns `b''` at once, so
    `if data:` keeps failing and the loop spins for ever. The model
    therefore ignores the events after an `Eof` and records the handler as
    never returning (`PeerClosedSpins`).
- **Files** are a map from name to contents.
- **CSV reading and writing are parameters.**
  - `readCsv: string -> seq<Record>` turns file text into records.
  - `csv: seq<R> -> seq<byte>` encodes the dispatcher's rows.
- **Float parsing, `:.5f` formatting and `datetime.fromisoformat`** are the
  fields of a `Numerics` value supplied by the caller.

Behaviours of the code that a reader might not expect, kept by the model as
written:

- **The passive peer is not held idle.** With both peers connected, the passive
  handler also pushes on its own receive timeout, and it pushes the head share
  (`BothTimeOut`).
- **The second connection's address is never checked.** When the first
  connection is not the active address, the second one is labelled active
  whatever its address (`SecondPeerUncheckedAfterPassive`).
- **An arbitrary second address is accepted** as the passive peer after the
  active one.
- **The configuration is fixed.** The active address, the 0.1 s probe window
  and the 10 s timeouts are constants in the code, not configuration.
- **The passive unit never reads `i`.** It only assigns it, so `i` cannot steer
  the resumption (`RoundIgnoresI`).

## Model

| member | source | states |
|---|---|---|
| Py.Upper | Pipe_filter.py:98-99 | `str.upper()` maps every character by the Latin-1 upper-case map and keeps the length |
| Py.Lower | Pipe_filter.py:36 | `str.lower()` maps every character by the Latin-1 lower-case map and keeps the length |
| Py.Capitalize | Pipe_filter.py:95 | `str.capitalize()` upper-cases the first character, lower-cases the rest, and keeps the length |
| Py.ReplaceChar | Pipe_filter.py:102 | `replace(' ', '_')` replaces exactly the spaces and keeps every other character in place |
| Py.Strip | Unite_passive/split.py:20-27 | `strip()` removes only whitespace, and only before and after the kept piece, which neither starts nor ends with whitespace; the result is empty iff the input is all whitespace |
| Py.FirstToken | Pipe_filter.py:31 | `split()[0]` raises IndexError iff the text is all whitespace; otherwise it is the first maximal run of non-whitespace characters: only whitespace before it, and whitespace or the end right after it |
| Py.IntMatchesSixDigits | Pipe_filter.py:21 | `^\d{6}$` matches `str(i)` iff `100000 <= i <= 999999` |
| Py.IntMatchesFiveDigits | Pipe_filter.py:58 | `^\d{5}$` matches `str(i)` iff `10000 <= i <= 99999` |
| Py.TruncateReal | Pipe_filter.py:109 | `int(x)` on a float truncates toward zero: the result lies within one of `x`, on the side nearer zero |
| PipeFilter.Field | Pipe_filter.py:21 | `donnees[key]` yields the field's value iff it is present, and raises KeyError otherwise |
| PipeFilter.StrMethod | Pipe_filter.py:31-36 | calling a string method on a field raises AttributeError iff the field is not a string |
| PipeFilter.StrArgument | Pipe_filter.py:45-50 | iterating over or regex-matching a field raises TypeError iff the field is not a string |
| PipeFilter.ParseFloat | Pipe_filter.py:31 | `float(s)` yields the parsed number, or ValueError when the text does not parse |
| PipeFilter.ToFloat | Pipe_filter.py:67 | `float(v)` widens an int and keeps a float; a string gives its parsed number, and raises ValueError iff it does not parse |
| PipeFilter.ToInt | Pipe_filter.py:109 | `int(v)` keeps an int and truncates a float toward zero; a string gives its parsed integer, and raises ValueError iff it does not parse |
| PipeFilter.CheckCompteur | Pipe_filter.py:21-22 | the meter-id check raises iff the field is missing; otherwise it passes iff `str(value)` is exactly six digits |
| PipeFilter.CheckTimestamp | Pipe_filter.py:24-28 | the timestamp check completes iff the field is a string (a missing field raises KeyError, a non-string TypeError); it then passes iff `fromisoformat` accepts the text |
| PipeFilter.CheckConsommation | Pipe_filter.py:30-33 | the consumption check completes iff the field is a string whose first word parses as a number; it then passes iff `0 <= c <= 10000` |
| PipeFilter.CheckTypeClient | Pipe_filter.py:36-38 | the client-type check completes iff the field is a string; it then passes iff the lower-cased text is residentiel, commercial or industriel |
| PipeFilter.CheckWilaya | Pipe_filter.py:40-42 | the wilaya check completes iff the field is a string; it then passes iff the text is non-empty and all letters |
| PipeFilter.CheckVille | Pipe_filter.py:44-46 | the city check completes iff the field is a string; it then passes iff every character is a letter, whitespace or a quote |
| PipeFilter.CheckLocalisation | Pipe_filter.py:48-51 | the location check completes iff the field is a string; it then passes iff the text matches `^-?\d+\.\d+,-?\d+\.\d+$` |
| PipeFilter.CheckRegion | Pipe_filter.py:53-55 | the region check completes iff the field is a string; it then passes iff the text is non-empty and all letters |
| PipeFilter.CheckCodePostal | Pipe_filter.py:58-59 | the postcode check raises iff the field is missing; otherwise it passes iff `str(value)` is exactly five digits |
| PipeFilter.CheckFournisseur | Pipe_filter.py:61-63 | the supplier check completes iff the field is a string; it then passes iff every character is alphanumeric or whitespace |
| PipeFilter.CheckTarif | Pipe_filter.py:66-71 | the tariff check raises only on a missing field; it fails iff the value does not parse or is `<= 0` |
| PipeFilter.CheckPuissance | Pipe_filter.py:73-76 | the power check completes iff the field is a string whose first word parses as a number; it then passes iff that number is `> 0` |
| PipeFilter.CheckTypeCompteur | Pipe_filter.py:78-80 | the meter-type check completes iff the field is a string; it then passes iff every character is alphanumeric or whitespace |
| PipeFilter.CollectRaisesIff | Pipe_filter.py:18-82 | message collection raises iff one of the checks raises |
| PipeFilter.CollectMessages | Pipe_filter.py:18-82 | the messages are a subsequence of the check messages; with distinct messages, each appears iff its check fails; the list is empty iff every check passes |
| PipeFilter.CollectOutcome | Pipe_filter.py:18-82 | the two above combined: raise iff a check raises, else exactly one message per failing check, in check order |
| PipeFilter.ValidationOutcome | Pipe_filter.py:18-82 | `FiltreValidation.traiter` raises iff a field check raises; otherwise its list holds exactly the messages of the failing checks, in field order, and is empty iff every check passes |
| PipeFilter.MessagesDistinct | Pipe_filter.py:22-80 | the thirteen error messages are pairwise different |
| PipeFilter.CompteurIdCheck | Pipe_filter.py:21-22 | an integer meter id passes iff it has exactly six digits |
| PipeFilter.CodePostalCheck | Pipe_filter.py:58-59 | an integer postcode passes iff it has exactly five digits |
| PipeFilter.TarifReportedOnce | Pipe_filter.py:66-71 | an unparsable or non-positive tariff yields "Tarif invalide" exactly once |
| PipeFilter.ReportedOnce | Pipe_filter.py:18-82 | with distinct messages, the message of a failing check appears in the collected list exactly once |
| PipeFilter.UnparsableConsumptionRaises | Pipe_filter.py:31 | an unparsable first token of `consommation` makes validation raise rather than report |
| PipeFilter.Rewrite | Pipe_filter.py:92-112 | one in-place field update: it succeeds iff the field exists and its new value can be computed, and then only that field changes |
| PipeFilter.RewriteAllField | Pipe_filter.py:86-114 | when the rewrites name distinct fields and all succeed, each field named by a step ends up holding that step's conversion of its original value (later steps do not disturb it) |
| PipeFilter.ConsommationKwh | Pipe_filter.py:88-92 | the consumption must be exactly two words with a parsable quantity; the quantity is divided by 1000 only for `Wh`, formatted with five decimals and labelled ` kWh` |
| PipeFilter.CapitalizeValue | Pipe_filter.py:95 | `type_client` becomes its capitalised text; a non-string raises |
| PipeFilter.UpperValue | Pipe_filter.py:98-99 | `wilaya` and `ville` become their upper-cased text; a non-string raises |
| PipeFilter.FournisseurValue | Pipe_filter.py:102 | `fournisseur` has its spaces replaced by `_`, then is upper-cased |
| PipeFilter.PuissanceValue | Pipe_filter.py:105-106 | the subscribed power becomes the float its first word spells; it raises iff the value is not a string, has no word, or its first word does not parse |
| PipeFilter.CodePostalValue | Pipe_filter.py:109 | the postcode becomes `int(v)`: an int kept, a float truncated toward zero, a string parsed (ValueError iff it does not parse) |
| PipeFilter.TarifValue | Pipe_filter.py:112 | the tariff becomes `float(v)`: a float kept, an int widened, a string parsed (ValueError iff it does not parse) |
| PipeFilter.Normalise | Pipe_filter.py:86-114 | normalisation keeps the set of fields and changes no field outside the eight it rewrites |
| PipeFilter.NormalisedFieldsValues | Pipe_filter.py:88-112 | after normalisation each of the eight fields holds its rewritten value: consumption in kWh, capitalised client type, upper-cased wilaya, ville and supplier, and the power, postcode and tariff converted as `PuissanceValue`, `CodePostalValue` and `TarifValue` state |
| PipeFilter.Categorie | Pipe_filter.py:133-138 | the category is Faible below 1.67, moyenne from 1.67 to below 6.67, Forte otherwise: exactly one of the three |
| PipeFilter.CategorieMonotone | Pipe_filter.py:133-138 | the category does not decrease as consumption grows |
| PipeFilter.Divisor | Pipe_filter.py:141-142 | the division by the subscribed power raises iff that power is a string or zero, and otherwise divides by the power as a real number |
| PipeFilter.Transform | Pipe_filter.py:126-145 | transformation adds exactly `consommation_8h`, `categorie_client` and `ratio_consommation`, and changes no other field |
| PipeFilter.TransformedFields | Pipe_filter.py:128-145 | the added fields hold eight times the consumption in kWh, the category of the consumption, and the consumption/power ratio |
| PipeFilter.TransformedInputs | Pipe_filter.py:128-143 | a transformation that completes read a string consumption whose first word parses as a float, and a power that is a non-zero number |
| PipeFilter.TransformValue | Pipe_filter.py:126-145 | from such inputs, transformation completes and returns the record with exactly the three added fields set, in source order |
| PipeFilter.ValidationYieldsNone | Pipe_filter.py:155-161 | any filter list containing a validation filter makes `traiter` return `None` whenever it does not raise |
| PipeFilter.ComposeSnoc | Pipe_filter.py:152-164 | composing a list with one more filter at the end applies that filter to the composition of the rest |
| PipeFilter.ApplyFromFront | Pipe_filter.py:152-164 | the composition can equally be run from the first filter |
| PipeFilter.NoValidationIsComposition | Pipe_filter.py:152-164 | without a validation filter, `traiter` is the composition of the filters in list order; with no filters it returns the record unchanged |
| PipeFilter.FullPipelineOutcome | Pipe_filter.py:152-164 | the three-filter pipeline returns `None` for every record whose validation completes, and raises with validation's exception otherwise |
| PipeFilter.Pipeline.constructor | Pipe_filter.py:149-150 | a pipeline holds the given filter list |
| PipeFilter.Pipeline.Traiter | Pipe_filter.py:152-164 | the loop over `self.filtres` yields exactly the pipeline function's result, with its `None` quirk |
| Batches.ArraySplitHalves | unite_reception_threads.py:22-23 | `np.array_split(rows, 2)` gives halves of `ceil(n/2)` and `floor(n/2)` records that concatenate back to the input |
| Batches.SliceHalves | Unite_reception.py:11-13 | slicing at `n // 2` gives parts of `n // 2` and `n - n // 2` records, the second at most one longer, that concatenate back to the input |
| Batches.DropNone | unite_reception_threads.py:53 | dropping the `None` results never lengthens the list, and keeps its length iff it holds no `None` |
| Batches.DropNoneConcat | unite_reception_threads.py:50-53 | dropping `None` from a concatenation is concatenating the dropped halves |
| Batches.DropNoneMembers | Unite_reception.py:39 | what remains is exactly the non-`None` results |
| Batches.DropNoneNoNone | Unite_reception.py:39 | a list without `None` keeps every result, in order |
| Batches.DropNoneAllNone | unite_reception_threads.py:53 | an all-`None` list leaves nothing |
| Batches.MapAll | unite_reception_threads.py:10 | the per-record comprehension completes iff every record's call completes, and then yields one result per record, in order; otherwise it raises the exception of the first record whose call raises |
| Batches.MapAllConcat | Unite_reception.py:30-36 | mapping two parts and concatenating equals mapping their concatenation, the first part's exceptions first |
| Workers.TraiterPartie | Unite_passive/unite_reception_threads.py:10-11 | `traiter_partie` fills its queue iff every record's `traiter` completes, with one result per record, in order |
| Workers.MergeIsWhole | Unite_passive/unite_reception_threads.py:54-61 | two workers on two parts merged with `None` dropped give what one pass over the concatenated parts gives |
| Workers.HalvingIsTransparent | Unite_passive/unite_reception_threads.py:30-61 | both halving rules followed by the merge give the result of processing the batch unsplit |
| Workers.FullPipelineOutputsNothing | unite_reception_threads.py:26-27 | with the full pipeline the output has no rows, and the processing raises iff some record's validation raises |
| Workers.NoValidationKeepsEveryRecord | Unite_passive/unite_reception_threads.py:109-136 | a validation-free pipeline yields exactly one composed record per input record, in order |
| Framing.BigEndianFour | Repartiteur/Repartiteur.py:27 | a 4-byte big-endian number is its bytes weighted by place value |
| Framing.EncodeLength | Repartiteur/Repartiteur.py:27 | `n.to_bytes(4, 'big')` for `n < 2^32` is four bytes whose big-endian value is `n` |
| Framing.EncodeBigEndian | repartiteur.py:13 | every 4-byte header decodes below `2^32` and re-encodes to itself, so decoding inverts encoding |
| Framing.Frame | Repartiteur/Repartiteur.py:25-32 | a frame exists iff the payload is shorter than `2^32` bytes; it is the 4-byte length of the payload followed by the payload |
| Framing.FrameInjective | Repartiteur/Repartiteur.py:27-29 | different payloads never give the same frame |
| Receiver.Connection.constructor | repartiteur.py:8-10 | a fresh connection has consumed nothing |
| Receiver.Connection.Recv | repartiteur.py:16 | `recv(n)` returns the next bytes of the stream, at most `n` and at most what the network delivers, and is empty only at end of stream |
| Receiver.Header | repartiteur.py:13 | the header read is a prefix of the stream of at most 4 bytes |
| Receiver.Received | repartiteur.py:13-19 | the stored bytes never exceed the declared length; they directly follow the header; they fall short exactly when the stream ends first |
| Receiver.RecevoirDataset | repartiteur.py:13-22 | the receive loop ends with exactly the received bytes; a short result means end of stream; the file `Pipe-Filter/dataset.csv` then holds them |
| Receiver.ReceiveFrame | repartiteur.py:13-19 | when the first `recv` delivers the whole header, receiving a frame stores exactly its payload |
| Repartiteur.Diviser | Repartiteur/Repartiteur.py:10-20 | the head share has `n // 3` rows, the tail share the other `n - n // 3`, and together they are the dataset in order |
| Repartiteur.Envoyer | Repartiteur/Repartiteur.py:22-32 | a push reaches the wire iff the CSV bytes are shorter than `2^32`; the wire then carries their 4-byte big-endian length and the bytes themselves; otherwise the failure is only reported |
| Repartiteur.FirstDecisive | Repartiteur/Repartiteur.py:40-55 | the event that settles a handler's receive loop is the first timeout, receive error, exact `"panne"` message or closed-peer read; earlier events change nothing |
| Repartiteur.GererClient | Repartiteur/Repartiteur.py:34-80 | the handler's loop with its `panne`/`sent` flags produces exactly the trace of the handler's specification |
| Repartiteur.PeerClosedSpins | Repartiteur/Repartiteur.py:40-48 | a peer that closes before any timeout, error or `"panne"` leaves its handler spinning on empty reads: nothing is pushed or closed and the handler never returns |
| Repartiteur.HandlerPushesAtMostOnce | Repartiteur/Repartiteur.py:56-80 | a handler pushes at most once; when it returns, its last act is closing its own socket |
| Repartiteur.FailoverOnPanneOnly | Repartiteur/Repartiteur.py:62-69 | a two-peer handler pushes to the other peer iff its decisive event is exactly `"panne"` |
| Repartiteur.Classify | Repartiteur/Repartiteur.py:96-113 | the first connection is active iff it comes from the active address, otherwise passive. Both slots are filled iff the second accept succeeds. The second peer then takes the other slot, and its address is never checked |
| Repartiteur.HandlerCalls | Repartiteur/Repartiteur.py:116-130 | one handler runs per connected peer, and two run iff both are connected. The active slot's handler starts first, with the other slot as its backup and the shares `(df_30, df_70)`. The passive slot's handler starts last, with the active slot as its backup and the shares swapped `(df_70, df_30)` |
| Repartiteur.RunServer | Repartiteur/Repartiteur.py:84-133 | the accept, classify and dispatch sequence of `main` produces exactly the served trace |
| Repartiteur.SecondPeerUncheckedAfterPassive | Repartiteur/Repartiteur.py:98-103 | after a first non-active connection, the next one is labelled active whatever its address |
| Repartiteur.PassiveAloneGetsTailFirst | Repartiteur/Repartiteur.py:116-119 | a lone passive peer that times out receives the tail rows followed by the head rows |
| Repartiteur.BothTimeOut | Repartiteur/Repartiteur.py:125-130 | with both peers timing out, the active peer gets the tail share and the passive peer the head share, which together are every row once |
| Repartiteur.ActivePanneFailsOver | Repartiteur/Repartiteur.py:62-69 | on the active peer's `"panne"`, the passive peer receives all rows in order, its socket is closed, and the active socket is closed without data |
| Repartiteur.SinglePeerPanneSendsNothing | Repartiteur/Repartiteur.py:36-55 | a lone peer that signals `"panne"` receives nothing; its socket is only closed |
| Repartiteur.SinglePeerTimeoutSendsAll | Repartiteur/Repartiteur.py:49-54 | a lone active peer that times out receives every row, and the receiver stores exactly their CSV bytes |
| Reception.ProcessDataset | unite_reception_threads.py:14-60 | the threaded processing saves `Pipe-Filter/dataset_traite.csv` with no rows iff every record's validation completes, and blocks otherwise |
| Reception.FirstWithInput | unite_reception_threads.py:13-14 | the first existence check that sees the dataset: every earlier check saw none |
| Reception.RunThreadedReception | unite_reception_threads.py:13-61 | the unit polls until the dataset exists, processes it once and stops; without it, it keeps polling |
| Reception.ProcessReceived | unite_reception_threads.py:16-60 | reading, halving, two workers, the merge and the save yield the dataset's processing outcome |
| Reception.ReceptionScript | Unite_reception.py:11-45 | the script's output has no rows, and it completes iff every record's validation completes |
| CheckpointSplit.MarkerAt | Unite_passive/split.py:12-13 | the separator at a position is an alternative that starts there, the first one whenever it starts there, and none iff neither starts there |
| CheckpointSplit.FindMarker | Unite_passive/split.py:13 | the leftmost separator position, with no separator before it |
| CheckpointSplit.ReSplit | Unite_passive/split.py:12-13 | `re.split` with a capturing group gives pieces that alternate separator-free text and separators, and join back to the input |
| CheckpointSplit.ReSplitAt | Unite_passive/split.py:13 | `re.split` cuts at the leftmost separator: the text before it, the separator, then the split of the rest |
| CheckpointSplit.OneMarkerSplitsAtIt | Unite_passive/split.py:13-23 | with exactly one separator in the text, stage 1 keeps the stripped text before it, stage 2 the stripped text after it, and stage 3 nothing |
| CheckpointSplit.SplitScript | Unite_passive/split.py:4-40 | the script completes iff the stage-1 file exists, and it never removes a file |
| CheckpointSplit.KeptPartsClean | Unite_passive/split.py:19-27 | every kept part is stripped and holds no separator |
| CheckpointSplit.NoMarkerKeepsWhole | Unite_passive/split.py:19-20 | text without a separator is one piece: stage 1 keeps it stripped, and the other parts are empty |
| CheckpointSplit.OnePieceMeansNoMarker | Unite_passive/split.py:19-20 | a single piece means the text holds no separator |
| CheckpointSplit.SplitWrites | Unite_passive/split.py:29-40 | each checkpoint file receives its positional part iff that part is non-empty, and no other file changes |
| CheckpointSplit.WriteIfNonEmptyEffect | Unite_passive/split.py:30-40 | one `if part: write` sets the file to the part iff it is non-empty and leaves every other file as it was |
| CheckpointSplit.TooManyPiecesWritesNothing | Unite_passive/split.py:16-40 | three or more separators leave the store unchanged |
| PassiveUnit.Probe | Unite_passive/unite_reception_threads.py:82-90 | the bounded wait makes at most one existence check, exactly when the first clock test is inside the window, and finds the file iff that check sees it |
| PassiveUnit.Recover | Unite_passive/unite_reception_threads.py:97-146 | a recovery always leaves the loop; it saves `dataset_traite_active.csv` with the unsplit processing result, or blocks when a worker raises |
| PassiveUnit.RunStageOne | Unite_passive/unite_reception_threads.py:72-146 | the stage-1 block (split, probe, set `i` or recover) does exactly what the stage-1 specification says |
| PassiveUnit.RunStageTwo | Unite_passive/unite_reception_threads.py:149-217 | the stage-2 block does exactly what the stage-2 specification says |
| PassiveUnit.RunStageThree | Unite_passive/unite_reception_threads.py:219-244 | the stage-3 block does exactly what the stage-3 specification says |
| PassiveUnit.RunCheckpoints | Unite_passive/unite_reception_threads.py:72-244 | the three checkpoint blocks run in order until one leaves the loop |
| PassiveUnit.RunRound | Unite_passive/unite_reception_threads.py:21-244 | one pass of the loop body does exactly what the round specification says |
| PassiveUnit.RunPassiveUnit | Unite_passive/unite_reception_threads.py:20-244 | the `while True` loop runs rounds until one breaks out or blocks |
| PassiveUnit.DatasetCheckedFirst | Unite_passive/unite_reception_threads.py:21 | every round first checks `dataset.csv`; without it, no checkpoint is inspected and the loop goes on |
| PassiveUnit.MainOutputEmpty | Unite_passive/unite_reception_threads.py:24-68 | with the dataset present, the round blocks iff some record's validation raises; otherwise `dataset_traite.csv` is saved with no rows |
| PassiveUnit.SplitFailureSkipsProbe | Unite_passive/unite_reception_threads.py:72-79 | a non-zero exit of `split.py` skips the stage-2 probe and the recovery |
| PassiveUnit.StageOneRecovery | Unite_passive/unite_reception_threads.py:94-146 | stage 2 not found: the stage-1 records get normalisation then transformation; the result goes to `dataset_traite_active.csv` and the loop breaks, or the round blocks if a record raises |
| PassiveUnit.StageOneFound | Unite_passive/unite_reception_threads.py:94-96 | stage 2 found: `i` becomes 1 and checking goes on with the split's files |
| PassiveUnit.StageTwoRecovery | Unite_passive/unite_reception_threads.py:164-217 | stage 3 not found: the stage-2 records get transformation alone, one result per record, saved before the break |
| PassiveUnit.StageThreeCopies | Unite_passive/unite_reception_threads.py:234-244 | stage 1 not found again: the stage-3 records are copied unchanged to `dataset_traite_active.csv` and the loop breaks |
| PassiveUnit.CheckpointsBreakSavesActive | Unite_passive/unite_reception_threads.py:143-244 | the checkpoint blocks leave the loop only right after saving `dataset_traite_active.csv` |
| PassiveUnit.BreakSavesActive | Unite_passive/unite_reception_threads.py:143-244 | a round that breaks out has just saved `dataset_traite_active.csv` |
| PassiveUnit.RunBreakSavesActive | Unite_passive/unite_reception_threads.py:20-244 | whenever the outer loop ends by `break`, its last act was saving `dataset_traite_active.csv` |
| PassiveUnit.AllFoundContinues | Unite_passive/unite_reception_threads.py:72-236 | when every checkpoint exists and every probe finds its successor, the round ends with `i == 3` and the loop goes on |
| PassiveUnit.StageOneIgnoresI | Unite_passive/unite_reception_threads.py:72-146 | the stage-1 block's steps, ending and resulting files do not depend on `i` |
| PassiveUnit.StageTwoIgnoresI | Unite_passive/unite_reception_threads.py:149-217 | the stage-2 block's steps, ending and resulting files do not depend on `i` |
| PassiveUnit.CheckpointsIgnoreI | Unite_passive/unite_reception_threads.py:96-236 | the checkpoint blocks act the same whatever `i` holds |
| PassiveUnit.RoundIgnoresI | Unite_passive/unite_reception_threads.py:18-244 | a round's steps and ending do not depend on `i`, which is only assigned |

## Left out

- Sockets, threads and queues are replaced by values.
  - Every thread is joined before its result is used, so the model runs
    them one after the other.
  - When both dispatcher handlers run, the model runs the active handler and
    then the passive one. Interleavings, and `recv` on a socket the other
    handler closed, are not modelled: each peer's receive events are an
    arbitrary input.
- Repartiteur.Envoyer: does not model sending on a socket that is already
  closed. The push is recorded as sent whenever the frame fits.
- The accept loop in `main` ends with `break` after its first pass, so only
  that pass is modelled. A timeout on the first accept ends the server with
  no handler. A failure of `bind` is not modelled.
- pandas and numpy are left out. `read_csv`, `to_dict`, `DataFrame.to_csv`
  and the dispatcher's CSV encoding are parameters, so the model does not
  say what text a table becomes.
  - `readCsv` is total, so read errors are not modelled. An example is
    `EmptyDataError` on an empty file: in the passive unit it would end the
    program rather than continue, break or hang.
- Float parsing, `:.5f` formatting and ISO timestamp parsing are abstract
  (`Numerics`). IEEE rounding is not modelled, and transformation's division
  is exact real division.
- Character classes and case mappings cover U+0000..U+00FF only. Beyond
  that, no character is a letter, digit or space, and case mapping is the
  identity. `ß`, `ÿ` and `µ` (U+00B5), whose upper-case forms lie outside
  Latin-1 (`SS`, U+0178 and U+039C), are kept unchanged by `Upper` and
  `Capitalize`.
- CheckpointSplit.ReSplit: matches the two checkpoint names as literal text.
  In the real pattern each unescaped `.` matches any character.
- CheckpointSplit.SplitScript: splits the stored text exactly as it is.
  `Unite_passive/split.py` opens the checkpoint files in text mode, with
  UTF-8 decoding. Reading turns `"\r\n"` and `"\r"` into `"\n"`, and
  writing turns `"\n"` into the platform's line ending. The model leaves
  out this newline translation and the decoding.
- In the source, the checks after the first exception are never evaluated.
  The pure model evaluates them but discards them, which cannot be observed.
- The handlers' 10-second receive timeout is an event in the input, not a
  clock. Each `Msg` is the text of one `recv(1024)`. A `"panne"` delivered
  in two pieces is two non-decisive `Msg` events and, as in the source,
  triggers no failover.
- Receiver.Received: assumes nothing about the first `recv(4)`. If it
  returns fewer than 4 bytes, the declared length is decoded from those
  bytes, as the code does. `Receiver.ReceiveFrame` covers the full-header
  case.
- Each passive-unit round sees one fixed view of the directory.
  - The view can change only through `split.py`.
  - Other writers acting between two existence checks of the same round are
    not modelled.
  - The files the round itself saves are not added to that view.
  - The directory seen by the next round is a fresh input.
- `os.system('python split.py')` is an exit-status input.
  On status 0 the directory becomes what the `CheckpointSplit` model of
  the script writes. A non-zero status leaves the directory unchanged,
  whatever the script wrote before failing.
- PassiveUnit.Probe: reads the clock as a sequence of readings. It assumes
  that the readings do not go backwards and that each one-second sleep
  lasts at least one second.
- The commented-out clean-up at the end of the passive unit's loop is
  not code, so it is not modelled.
- `energy_datset.py` is not part of this model. It generates random data
  from the current time.
- These scripts are plumbing around the core and are not part of this
  model: `Unite_passive/unite_active.py`, `web_soket.py`, `izan.py` and
  `nermine.py`.
- Console output (`print`) is not modelled.
- The dispatcher reads its input file with pandas; that read is not
  modelled.
