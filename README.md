# Pupil coordinate overlay, modelled in Dafny

A model of `PupilCoordOverlay`, a plugin for an eye-tracking host. The host
calls the plugin once per tick with a batch of events. On each tick the plugin:

1. takes the first channel (`"pupil"`, `"pupil_positions"`, `"pupil.0"`,
   `"pupil.1"`, in that order) that holds a non-empty list;
2. scans that list backwards for the most recent datum of the target eye
   (`TARGET_EYE_ID = 1`), reading the datum's `"id"` before `"eye_id"`;
3. ignores a datum with no `norm_pos`, or an empty one;
4. rejects a datum whose confidence is below `CONF_CUTOFF = 0.60`. An absent
   confidence counts as -1.0. A rejection shows "confidence below 60%" and
   clears the pixel position;
5. otherwise maps the normalised position to pixels, with the Y axis flipped,
   updates the overlay fields and appends one row to the run's CSV log.

At construction the plugin derives its eye label (`eye0`, `eye1` or
`unknown-eye`) and the log file's path. It then makes sure the log file has
its header row.

Files:

- `wrappers.dfy`: `Option`.
- `pupil_data.dfy`: datums, the event batch, source lookup, target selection,
  frame size and eye label.
- `numerics.dfy`: Python's `round` and the pixel transform with its inverse.
- `csv_log.dfy`: log rows, the file's states, header and append effects, and
  the file path.
- `overlay.dfy`: the class `PupilCoordOverlay`, whose methods update the
  overlay fields and the log in place. Each method is proved against a pure
  function (`Step`, `WithHeader`, `Appended`).
- `overlay_facts.dfy`: what a tick does on each exit, and what it preserves.

Numbers are exact reals. Labels are a datatype rather than formatted text.
The log file is `Missing` or `Existing(rows)`, where each row is a list of
text or numeric cells.

The model follows the code in these details:

- The datum's eye id is read from `"id"` first and from `"eye_id"` only when
  `"id"` is absent.
- A `norm_pos` that is present but empty is treated like an absent one.
- The target eye and the cutoff are module constants, not constructor
  settings. `Step` takes them as a `Config` so that other values, including
  "any eye", can be reasoned about.

## Model

| member | source | states |
|---|---|---|
| `PupilData.FirstPopulated` | pupil_coord_overlay.py:117-120 | the index found holds a non-empty list and every earlier key does not; `None` only when no key does |
| `PupilData.GetPupilDatums` | pupil_coord_overlay.py:116-121 | the list returned is empty exactly when no candidate key holds a non-empty list, and then the key is `""`; otherwise the key is the first candidate holding a non-empty list, and the list is that key's value |
| `PupilData.EyeIdOf` | pupil_coord_overlay.py:55 | the datum's `"id"` when present, otherwise its `"eye_id"`; absent only when both are (the same lookup gives the label's eye id at line 83, with `None` shown as "unknown") |
| `PupilData.LastMatch` | pupil_coord_overlay.py:53-58 | the index found is a target-eye datum and no later datum is one; `None` only when no datum is |
| `PupilData.LastMatchAt` | pupil_coord_overlay.py:53-58 | any target-eye datum with no target-eye datum after it is the one selected (the selection is unique) |
| `PupilData.LastMatchAnyEye` | pupil_coord_overlay.py:56 | with no target eye, the last datum is taken |
| `PupilData.Confidence` | pupil_coord_overlay.py:66 | the datum's confidence when present, otherwise -1.0 |
| `PupilData.FrameSize` | pupil_coord_overlay.py:123-128 | the two components when the frame size is present and has length 2, otherwise `(1.0, 1.0)` |
| `PupilData.EyeLabel` | pupil_coord_overlay.py:28-29 | `"eye0"` exactly for process eye id 0, `"eye1"` exactly for 1, `"unknown-eye"` exactly for anything else |
| `Numerics.RoundHalfEven` | pupil_coord_overlay.py:70 | Python's `round`: within 1/2 of the input, and even on a tie |
| `Numerics.RoundHalfEvenUnique` | pupil_coord_overlay.py:70 | those two properties determine the rounded value |
| `Numerics.RoundHalfEvenNearest` | pupil_coord_overlay.py:70 | no integer is nearer to the input than the rounded value |
| `Numerics.CutoffPercent` | pupil_coord_overlay.py:70 | the percentage in the warning is within 1/2 of cutoff times 100, and even on a tie, so `RoundHalfEvenUnique` makes it `int(round(cutoff * 100))` |
| `Numerics.ToPixels` | pupil_coord_overlay.py:77-78 | for a non-zero width the pixel column is the fraction x of the width, and the pixel row lies y·h above the bottom edge (Y flipped) |
| `Numerics.PixelsRoundTrip` | pupil_coord_overlay.py:77-78 | for a non-degenerate frame, mapping to pixels and back gives the normalised position |
| `Numerics.NormalisedRoundTrip` | pupil_coord_overlay.py:77-78 | for a non-degenerate frame, mapping pixels to normalised coordinates and back gives the pixels |
| `Numerics.PixelsInsideFrame` | pupil_coord_overlay.py:77-78 | a position in the unit square lands inside the frame; normalised y = 0 is pixel row h and y = 1 is row 0 |
| `Numerics.PixelsFlipY` | pupil_coord_overlay.py:78 | a higher normalised y gives a smaller pixel row |
| `Numerics.PixelsExample` | pupil_coord_overlay.py:77-78 | (0.5, 0.25) in a 1000 by 500 frame is pixel (500, 375) |
| `CsvLog.WithHeader` | pupil_coord_overlay.py:130-136 | the file ends non-empty; a non-empty file is untouched; a missing or empty file ends holding exactly the header row |
| `CsvLog.WithHeaderIdempotent` | pupil_coord_overlay.py:130-136 | ensuring the header twice is the same as once |
| `CsvLog.Appended` | pupil_coord_overlay.py:139-145 | the file exists and is non-empty afterwards (append mode creates a missing file), keeps its old rows as a prefix and has the new row last |
| `CsvLog.SampleRow` | pupil_coord_overlay.py:138-145 | a sample row has one cell per header column |
| `CsvLog.JoinPath` | pupil_coord_overlay.py:36-39 | `os.path.join`: the directory, at most one added separator, then the name; a non-empty directory and the name are separated by `/` |
| `CsvLog.CsvFileName` | pupil_coord_overlay.py:38 | `pupil_coords_`, the eye label, `_`, the start time and `.csv`, in that order and nothing else |
| `CsvLog.CsvPath` | pupil_coord_overlay.py:36-39 | the path starts with the settings directory and ends with the run's file name |
| `CsvLog.CsvPathDistinct` | pupil_coord_overlay.py:34-39 | in one directory, two runs with equally long start times share a log path only if they have the same eye label and start time |
| `Overlay.Pick` | pupil_coord_overlay.py:48-60 | the datum picked is of the target eye and comes from a candidate channel; nothing is picked exactly when there is no source or no target-eye datum in it |
| `Overlay.Step` | pupil_coord_overlay.py:47-95 | only the warning and logged exits change state; only the logged exit changes the frame size or the log; the exit is "no source" exactly when no channel is populated |
| `Overlay.PupilCoordOverlay.constructor` | pupil_coord_overlay.py:20-44 | blank label, no position, frame (1, 1), eye label from the process eye id, the path from the directory, label and start time, and the file with its header ensured |
| `Overlay.PupilCoordOverlay.EnsureCsvHeader` | pupil_coord_overlay.py:130-136 | the file becomes `WithHeader` of what it was; nothing else changes |
| `Overlay.PupilCoordOverlay.AppendCsv` | pupil_coord_overlay.py:138-145 | the file gains exactly the sample row under this run's eye label; nothing else changes |
| `Overlay.PupilCoordOverlay.RecentEvents` | pupil_coord_overlay.py:47-95 | the backward scan and the gates leave the fields and the file exactly as `Step` prescribes from the old state |
| `OverlayFacts.PickIsLatestOfFirstChannel` | pupil_coord_overlay.py:48-58 | the picked datum comes from the first populated candidate channel, whose key comes with it, and is the most recent target-eye datum there |
| `OverlayFacts.NoSourceIsNoOp` | pupil_coord_overlay.py:48-50 | no populated channel: state unchanged |
| `OverlayFacts.NoTargetIsNoOp` | pupil_coord_overlay.py:53-60 | no target-eye datum in the source: state unchanged |
| `OverlayFacts.NoPositionIsNoOp` | pupil_coord_overlay.py:62-64 | picked datum with absent or empty position: state unchanged |
| `OverlayFacts.LowConfidenceWarns` | pupil_coord_overlay.py:66-73 | confidence below the cutoff: the warning label with the rounded percentage, the position cleared, frame size and log unchanged |
| `OverlayFacts.MissingConfidenceRejected` | pupil_coord_overlay.py:66-69 | an absent confidence is rejected by any cutoff above -1.0 |
| `OverlayFacts.CutoffIsInclusive` | pupil_coord_overlay.py:69 | confidence equal to the cutoff is logged |
| `OverlayFacts.AcceptedSampleLogged` | pupil_coord_overlay.py:75-95 | on accept, the position is (x·w, (1−y)·h) in the frame size, the label shows it, and exactly one row is appended with the run's eye label, the source key and the sample's values |
| `OverlayFacts.LogOnlyGrowsBySample` | pupil_coord_overlay.py:66-95 | every old row is kept, and one row is added exactly when a sample is logged |
| `OverlayFacts.HeaderStartsWellFormedLog` | pupil_coord_overlay.py:130-136 | a missing or empty file becomes a log of the header alone |
| `OverlayFacts.StepKeepsLogWellFormed` | pupil_coord_overlay.py:93-95 | a log that is the header followed by this eye's sample rows stays so after any tick |
| `OverlayFacts.DefaultCutoffIsSixtyPercent` | pupil_coord_overlay.py:14 | the cutoff 0.60 shows as 60 percent |
| `OverlayFacts.EmptyBatchIsNoOp` | pupil_coord_overlay.py:48-50 | an empty batch changes nothing |
| `OverlayFacts.OnlyLastChannelPopulated` | pupil_coord_overlay.py:116-121 | with only `"pupil.1"` populated and target eye 1, the logged row names `"pupil.1"` |
| `OverlayFacts.LatestConfidentSampleLogged` | pupil_coord_overlay.py:53-95 | with confidences 0.40 then 0.75 for eye 1 and cutoff 0.60, the later datum is logged in one new row, with confidence 0.75 and pixel (500, 375) |

## Left out

- `gl_display` and the font rendering: a foreign UI library that draws the label at a fixed anchor, whatever the pixel position.
- The host's plugin base class, `order`, and the `getattr` plumbing on `g_pool`. The process eye id and the capture's frame size are plain inputs.
- Directory creation (`os.makedirs`) and `os.path.expanduser`. The settings directory is an input.
- Real file I/O, `csv` quoting and line terminators, and I/O errors. The file is modelled as its rows, and an existing file is non-empty exactly when it has a row.
- Wall-clock values. The start-time string and `time.time()` are inputs.
- The text of labels and CSV cells: the `:.1f`, `:.3f` and `:.6f` formatting, and `str` of the eye id in the label. Labels are a datatype and cells hold exact numbers.
- IEEE doubles: rounding, NaN and infinities (a NaN confidence passes the `<` gate in the source). All arithmetic is on exact reals, so every logged confidence meets the cutoff in the model.
- `logger.info` calls.
- `TypeError` and `ValueError` from `float()` on a non-numeric confidence or timestamp, or from non-numeric coordinates. Datum fields are typed. The one exception modelled is the unpacking of a `norm_pos` that does not have two coordinates (exit `UnpackFailed`, with nothing changed).
- Python values equal to 0 or 1 that are not ints (`True`, `1.0`). Eye ids are `IntId(n)` or `OtherId`, so labels like `"eyeTrue"` do not arise.
- `Overlay.PupilCoordOverlay.RecentEvents` returns the exit it took. The source returns `None`; the exit is there so callers can tell the raised `ValueError` apart from the silent exits.
