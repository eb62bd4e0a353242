/** What one tick of the overlay does, exit by exit, and what it keeps:
    the log only ever grows by the accepted sample, and stays a header
    followed by sample rows of this run's eye. */
module OverlayFacts {
  import opened Wrappers
  import opened PupilData
  import opened Numerics
  import opened CsvLog
  import opened Overlay

  /** The tick's datum is the most recent target-eye datum of the first
      populated channel, and it comes with that channel's key. */
  lemma PickIsLatestOfFirstChannel(target: Option<int>, events: EventBatch, d: Datum, key: string)
    requires Pick(target, events) == Some((d, key))
    ensures key in CANDIDATE_KEYS && Populated(events, key)
    ensures forall j :: 0 <= j < |CANDIDATE_KEYS| && CANDIDATE_KEYS[j] == key ==>
              forall j' :: 0 <= j' < j ==> !Populated(events, CANDIDATE_KEYS[j'])
    ensures var datums := events[key].datums;
            exists i :: 0 <= i < |datums| && datums[i] == d && IsTarget(d, target) &&
              forall j :: i < j < |datums| ==> !IsTarget(datums[j], target)
  {
  }

  /** No channel holds a non-empty list: nothing changes. */
  lemma NoSourceIsNoOp(cfg: Config, s: OverlayState, events: EventBatch, frameSize: Option<seq<real>>, now: real)
    requires forall j :: 0 <= j < |CANDIDATE_KEYS| ==> !Populated(events, CANDIDATE_KEYS[j])
    ensures Step(cfg, s, events, frameSize, now) == (s, NoSource)
  {
  }

  /** The chosen channel holds no datum of the target eye: nothing changes. */
  lemma NoTargetIsNoOp(cfg: Config, s: OverlayState, events: EventBatch, frameSize: Option<seq<real>>, now: real)
    requires GetPupilDatums(events).0 != []
    requires forall j :: 0 <= j < |GetPupilDatums(events).0| ==> !IsTarget(GetPupilDatums(events).0[j], cfg.target)
    ensures Step(cfg, s, events, frameSize, now) == (s, NoTarget)
  {
  }

  /** The chosen datum has no position, or an empty one: nothing changes. */
  lemma NoPositionIsNoOp(cfg: Config, s: OverlayState, events: EventBatch, frameSize: Option<seq<real>>, now: real,
                         d: Datum, key: string)
    requires Pick(cfg.target, events) == Some((d, key))
    requires d.normPos.None? || d.normPos.value == []
    ensures Step(cfg, s, events, frameSize, now) == (s, NoPosition)
  {
  }

  /** A confidence below the cutoff (an absent one counts as -1.0) shows
      the warning with the cutoff as a whole percentage, clears the pixel
      position, and keeps the frame size and the log. */
  lemma LowConfidenceWarns(cfg: Config, s: OverlayState, events: EventBatch, frameSize: Option<seq<real>>, now: real,
                           d: Datum, key: string)
    requires Pick(cfg.target, events) == Some((d, key))
    requires d.normPos.Some? && d.normPos.value != []
    requires d.confidence.GetOr(-1.0) < cfg.cutoff
    ensures var (s', exit) := Step(cfg, s, events, frameSize, now);
            exit == LowConfidence &&
            s'.caption == Warning(CutoffPercent(cfg.cutoff)) &&
            s'.cxcy == None && s'.wh == s.wh && s'.csv == s.csv
  {
  }

  /** A datum with no confidence is rejected by any cutoff above -1.0. */
  lemma MissingConfidenceRejected(cfg: Config, s: OverlayState, events: EventBatch, frameSize: Option<seq<real>>, now: real,
                                  d: Datum, key: string)
    requires Pick(cfg.target, events) == Some((d, key))
    requires d.normPos.Some? && d.normPos.value != []
    requires d.confidence.None? && cfg.cutoff > -1.0
    ensures Step(cfg, s, events, frameSize, now).1 == LowConfidence
  {
  }

  /** The threshold is inclusive: a confidence equal to the cutoff is
      logged. */
  lemma CutoffIsInclusive(cfg: Config, s: OverlayState, events: EventBatch, frameSize: Option<seq<real>>, now: real,
                          d: Datum, key: string)
    requires Pick(cfg.target, events) == Some((d, key))
    requires d.normPos.Some? && |d.normPos.value| == 2
    requires d.confidence == Some(cfg.cutoff)
    ensures Step(cfg, s, events, frameSize, now).1 == Logged
  {
  }

  /** An accepted datum: its position is mapped to pixels in the frame size
      (Y flipped), the overlay shows it, and exactly one row is appended,
      carrying the run's eye label (not the datum's eye id), the channel
      key and the sample's values. */
  lemma AcceptedSampleLogged(cfg: Config, s: OverlayState, events: EventBatch, frameSize: Option<seq<real>>, now: real,
                             d: Datum, key: string)
    requires Pick(cfg.target, events) == Some((d, key))
    requires d.normPos.Some? && |d.normPos.value| == 2
    requires Confidence(d) >= cfg.cutoff
    ensures var r := Step(cfg, s, events, frameSize, now);
            var xNorm, yNorm := d.normPos.value[0], d.normPos.value[1];
            var w, h := FrameSize(frameSize).0, FrameSize(frameSize).1;
            r.1 == Logged &&
            r.0.cxcy == Some((xNorm * w, (1.0 - yNorm) * h)) &&
            r.0.wh == (w, h) &&
            r.0.caption == Reading(EyeIdOf(d), xNorm * w, (1.0 - yNorm) * h, xNorm, yNorm) &&
            Rows(r.0.csv) == Rows(s.csv) + [[Num(d.timestamp.GetOr(now)), Text(cfg.eyeLabel), Text(key),
                                             Num(xNorm), Num(yNorm), Num(xNorm * w), Num((1.0 - yNorm) * h),
                                             Num(Confidence(d)), Text(d.detector.GetOr(""))]]
  {
    var xNorm, yNorm := d.normPos.value[0], d.normPos.value[1];
    var w, h := FrameSize(frameSize).0, FrameSize(frameSize).1;
    var px := ToPixels(xNorm, yNorm, w, h);
    assert px.0 == xNorm * w && px.1 == (1.0 - yNorm) * h;
  }

  /** The log is append-only: a tick keeps every row and adds one row
      exactly when it logs a sample, none otherwise. */
  lemma LogOnlyGrowsBySample(cfg: Config, s: OverlayState, events: EventBatch, frameSize: Option<seq<real>>, now: real)
    ensures var (s', exit) := Step(cfg, s, events, frameSize, now);
            |Rows(s'.csv)| == |Rows(s.csv)| + (if exit == Logged then 1 else 0) &&
            Rows(s'.csv)[..|Rows(s.csv)|] == Rows(s.csv)
  {
  }

  /** A sample row of the eye labelled `eyeLabel`, read from one of the
      candidate channels. */
  predicate IsSampleRow(row: Row, eyeLabel: string) {
    |row| == |HEADER| && row[1] == Text(eyeLabel) && row[2].Text? && row[2].s in CANDIDATE_KEYS
  }

  /** The log holds the header and then only sample rows of this eye. */
  predicate WellFormedLog(f: CsvFile, eyeLabel: string) {
    f.Existing? && f.rows != [] && f.rows[0] == HEADER &&
    forall i :: 1 <= i < |f.rows| ==> IsSampleRow(f.rows[i], eyeLabel)
  }

  /** Ensuring the header on a missing or empty file starts a well-formed
      log. */
  lemma HeaderStartsWellFormedLog(f: CsvFile, eyeLabel: string)
    requires !NonEmpty(f)
    ensures WellFormedLog(WithHeader(f), eyeLabel)
  {
  }

  /** Every tick keeps the log well formed. */
  lemma StepKeepsLogWellFormed(cfg: Config, s: OverlayState, events: EventBatch, frameSize: Option<seq<real>>, now: real)
    requires WellFormedLog(s.csv, cfg.eyeLabel)
    ensures WellFormedLog(Step(cfg, s, events, frameSize, now).0.csv, cfg.eyeLabel)
  {
  }

  /** The cutoff of 0.60 is shown as "confidence below 60%". */
  lemma DefaultCutoffIsSixtyPercent()
    ensures CutoffPercent(CONF_CUTOFF) == 60
  {
  }

  /** An empty event batch changes nothing. */
  lemma EmptyBatchIsNoOp(cfg: Config, s: OverlayState, frameSize: Option<seq<real>>, now: real)
    ensures Step(cfg, s, map[], frameSize, now) == (s, NoSource)
  {
  }

  /** Only "pupil.1" populated, target eye 1: the row names "pupil.1". */
  lemma OnlyLastChannelPopulated(s: OverlayState, frameSize: Option<seq<real>>, now: real, eyeLabel: string)
    ensures var d := Datum(Some(IntId(1)), None, Some([0.5, 0.25]), Some(0.9), Some(12.0), None);
            var (s', exit) := Step(Config(Some(1), 0.60, eyeLabel), s, map["pupil.1" := DatumList([d])], frameSize, now);
            exit == Logged && Rows(s'.csv)[|Rows(s'.csv)| - 1][2] == Text("pupil.1")
  {
  }

  /** Cutoff 0.60, two datums of eye 1 with confidences 0.40 then 0.75: the
      later one is logged, with confidence 0.75, in one new row; a frame of
      1000 by 500 puts (0.5, 0.25) at pixel (500, 375). */
  lemma LatestConfidentSampleLogged(s: OverlayState, now: real, eyeLabel: string)
    ensures var early := Datum(Some(IntId(1)), None, Some([0.2, 0.2]), Some(0.40), Some(1.0), Some("2d"));
            var late := Datum(Some(IntId(1)), None, Some([0.5, 0.25]), Some(0.75), Some(2.0), Some("2d"));
            var (s', exit) := Step(Config(Some(1), 0.60, eyeLabel), s, map["pupil" := DatumList([early, late])],
                                   Some([1000.0, 500.0]), now);
            exit == Logged && s'.cxcy == Some((500.0, 375.0)) &&
            Rows(s'.csv) == Rows(s.csv) + [[Num(2.0), Text(eyeLabel), Text("pupil"), Num(0.5), Num(0.25),
                                            Num(500.0), Num(375.0), Num(0.75), Text("2d")]]
  {
  }
}
