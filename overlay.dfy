/** The pupil coordinate overlay: on every tick it picks the most recent
    datum of the target eye, gates it on confidence, maps its position to
    pixels, updates what the overlay shows and logs accepted samples. */
module Overlay {
  import opened Wrappers
  import opened PupilData
  import opened Numerics
  import opened CsvLog

  /** The eye whose data is shown and logged (`None` would take any eye). */
  const TARGET_EYE_ID: Option<int> := Some(1)

  /** The lowest confidence that is accepted. */
  const CONF_CUTOFF: real := 0.60

  /** What the overlay shows. `Blank` (the empty string) shows nothing;
      `Warning(p)` is "confidence below p%"; `Reading` holds the datum's eye
      id ("unknown" when it has none) and the pixel and normalised
      coordinates that the text shows. */
  datatype Label =
    | Blank
    | Warning(percent: int)
    | Reading(eye: Option<IdValue>, xPx: real, yPx: real, xNorm: real, yNorm: real)

  /** The exit a tick takes. `UnpackFailed` is the `ValueError` raised when
      an accepted datum's position does not have exactly two coordinates;
      it reaches the host with nothing changed. */
  datatype Tick = NoSource | NoTarget | NoPosition | LowConfidence | UnpackFailed | Logged

  /** The fixed settings a tick runs with. */
  datatype Config = Config(target: Option<int>, cutoff: real, eyeLabel: string)

  /** The overlay fields and the log file. */
  datatype OverlayState = OverlayState(caption: Label, cxcy: Option<(real, real)>, wh: (real, real), csv: CsvFile)

  /** The datum a tick works on and the key of the channel it came from: the
      most recent datum of the target eye in the first populated channel. */
  function Pick(target: Option<int>, events: EventBatch): (r: Option<(Datum, string)>)
    ensures r.Some? ==> IsTarget(r.value.0, target) && r.value.1 in CANDIDATE_KEYS
    ensures r.None? <==> GetPupilDatums(events).0 == [] ||
                         forall j :: 0 <= j < |GetPupilDatums(events).0| ==>
                           !IsTarget(GetPupilDatums(events).0[j], target)
  {
    var (datums, sourceKey) := GetPupilDatums(events);
    if datums == [] then None
    else match LastMatch(datums, target)
      case None => None
      case Some(i) => Some((datums[i], sourceKey))
  }

  /** One tick, `recent_events`: the new state and the exit taken. Only
      the warning and the logged sample change anything, and only the
      logged sample touches the frame size or the log. */
  function Step(cfg: Config, s: OverlayState, events: EventBatch,
                frameSize: Option<seq<real>>, now: real): (r: (OverlayState, Tick))
    ensures r.1 != LowConfidence && r.1 != Logged ==> r.0 == s
    ensures r.1 != Logged ==> r.0.wh == s.wh && r.0.csv == s.csv
    ensures r.1 == NoSource <==> GetPupilDatums(events).0 == []
  {
    match Pick(cfg.target, events)
    case None => (s, if GetPupilDatums(events).0 == [] then NoSource else NoTarget)
    case Some((d, sourceKey)) =>
      var norm := d.normPos.GetOr([]);
      if norm == [] then (s, NoPosition)
      else if Confidence(d) < cfg.cutoff then
        (s.(caption := Warning(CutoffPercent(cfg.cutoff)), cxcy := None), LowConfidence)
      else if |norm| != 2 then (s, UnpackFailed)
      else
        var wh := FrameSize(frameSize);
        var px := ToPixels(norm[0], norm[1], wh.0, wh.1);
        var row := SampleRow(d.timestamp.GetOr(now), cfg.eyeLabel, sourceKey, norm[0], norm[1],
                             px.0, px.1, Confidence(d), d.detector.GetOr(""));
        (OverlayState(Reading(EyeIdOf(d), px.0, px.1, norm[0], norm[1]), Some(px), wh,
                      Appended(s.csv, row)),
         Logged)
  }

  class PupilCoordOverlay {
    /** "eye0", "eye1" or "unknown-eye", from the process's eye id. */
    const eyeLabel: string
    /** Where this run's log file lives. */
    const csvPath: string

    /** `_label`: what the overlay shows. */
    var caption: Label
    var cxcy: Option<(real, real)>
    var wh: (real, real)
    /** The log file at `csvPath`. */
    var csv: CsvFile

    function Settings(): Config {
      Config(TARGET_EYE_ID, CONF_CUTOFF, eyeLabel)
    }

    function State(): OverlayState
      reads this
    {
      OverlayState(caption, cxcy, wh, csv)
    }

    /** Sets up an empty overlay for the process's eye, derives the log's
        path from the settings directory and the start time, and ensures the
        log file (in state `existing`) has its header. */
    constructor (processEyeId: IdValue, settingsDir: string, startTime: string, existing: CsvFile)
      ensures eyeLabel == EyeLabel(processEyeId)
      ensures csvPath == CsvPath(settingsDir, eyeLabel, startTime)
      ensures caption == Blank && cxcy == None && wh == (1.0, 1.0)
      ensures csv == WithHeader(existing)
    {
      caption := Blank;
      cxcy := None;
      wh := (1.0, 1.0);
      eyeLabel := EyeLabel(processEyeId);
      csvPath := CsvPath(settingsDir, EyeLabel(processEyeId), startTime);
      csv := existing;
      new;
      EnsureCsvHeader();
    }

    /** `_ensure_csv_header`. */
    method EnsureCsvHeader()
      modifies this`csv
      ensures csv == WithHeader(old(csv))
    {
      if csv.Existing? && csv.rows != [] {
        return;
      }
      csv := Existing([HEADER]);
    }

    /** `_append_csv`: one row for an accepted sample, under this run's eye
        label. */
    method AppendCsv(ts: real, sourceKey: string, xNorm: real, yNorm: real,
                     xPx: real, yPx: real, conf: real, detector: string)
      modifies this`csv
      ensures csv == Appended(old(csv), SampleRow(ts, eyeLabel, sourceKey, xNorm, yNorm, xPx, yPx, conf, detector))
    {
      csv := Appended(csv, SampleRow(ts, eyeLabel, sourceKey, xNorm, yNorm, xPx, yPx, conf, detector));
    }

    /** `recent_events`: one tick over an event batch, with the capture's
        frame size and the clock's reading `now` (the timestamp of a datum
        that has none). Returns the exit taken. */
    method RecentEvents(events: EventBatch, frameSize: Option<seq<real>>, now: real) returns (exit: Tick)
      modifies this`caption, this`cxcy, this`wh, this`csv
      ensures (State(), exit) == Step(Settings(), old(State()), events, frameSize, now)
    {
      var (datums, sourceKey) := GetPupilDatums(events);
      if datums == [] {
        return NoSource;
      }

      // The most recent datum of the target eye, scanning backwards.
      var dTarget: Option<Datum> := None;
      var k := |datums|;
      while k > 0
        invariant 0 <= k <= |datums|
        invariant forall j :: k <= j < |datums| ==> !IsTarget(datums[j], TARGET_EYE_ID)
        invariant dTarget == None
      {
        var d := datums[k - 1];
        var eyeId := if d.id.Some? then d.id else d.eyeId;
        if TARGET_EYE_ID.None? || eyeId == Some(IntId(TARGET_EYE_ID.value)) {
          LastMatchAt(datums, TARGET_EYE_ID, k - 1);
          dTarget := Some(d);
          break;
        }
        k := k - 1;
      }
      if dTarget.None? {
        return NoTarget;
      }
      var d := dTarget.value;

      var norm := d.normPos.GetOr([]);
      if norm == [] {
        return NoPosition;
      }

      var conf := d.confidence.GetOr(-1.0);
      if conf < CONF_CUTOFF {
        caption := Warning(RoundHalfEven(CONF_CUTOFF * 100.0));
        cxcy := None;
        return LowConfidence;
      }

      if |norm| != 2 {
        return UnpackFailed;
      }
      var xNorm, yNorm := norm[0], norm[1];
      var (w, h) := FrameSize(frameSize);
      var px := ToPixels(xNorm, yNorm, w, h);
      var xPx, yPx := px.0, px.1;
      var ts := d.timestamp.GetOr(now);
      var detector := d.detector.GetOr("");

      wh := (w, h);
      cxcy := Some((xPx, yPx));
      caption := Reading(EyeIdOf(d), xPx, yPx, xNorm, yNorm);
      AppendCsv(ts, sourceKey, xNorm, yNorm, xPx, yPx, conf, detector);
      return Logged;
    }
  }
}
