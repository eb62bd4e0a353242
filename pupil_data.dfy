/** The pure lookups of the pupil coordinate overlay: which channel of an
    event batch is read, which datum in it belongs to the target eye, the
    frame size with its fallback, and the eye label of the process. */
module PupilData {
  import opened Wrappers

  /** A value found under a datum's "id" or "eye_id" key, or the eye id the
      host assigns to the process: an integer, or anything else (`None`, a
      string, ...), which never equals an integer eye id. */
  datatype IdValue = IntId(n: int) | OtherId

  /** One pupil datum, a dictionary in the source. Each `Option` field is
      `None` when the key is absent. `normPos` is also `None` when the key
      holds `None`. `detector` holds the datum's `"method"` entry, renamed
      because `method` is a Dafny keyword. */
  datatype Datum = Datum(
    id: Option<IdValue>,
    eyeId: Option<IdValue>,
    normPos: Option<seq<real>>,
    confidence: Option<real>,
    timestamp: Option<real>,
    detector: Option<string>)

  /** A value of the event batch: a list of datums, or anything that is not
      a list (which the lookup skips). */
  datatype EventValue = DatumList(datums: seq<Datum>) | OtherValue

  type EventBatch = map<string, EventValue>

  /** The channels tried, in priority order. */
  const CANDIDATE_KEYS: seq<string> := ["pupil", "pupil_positions", "pupil.0", "pupil.1"]

  /** The key holds a non-empty list. */
  predicate Populated(events: EventBatch, key: string) {
    key in events && events[key].DatumList? && events[key].datums != []
  }

  /** The index of the first populated key of `keys`, if any. */
  function FirstPopulated(events: EventBatch, keys: seq<string>): (r: Option<nat>)
    ensures r.Some? ==> r.value < |keys| && Populated(events, keys[r.value])
    ensures r.Some? ==> forall j :: 0 <= j < r.value ==> !Populated(events, keys[j])
    ensures r.None? ==> forall j :: 0 <= j < |keys| ==> !Populated(events, keys[j])
  {
    if keys == [] then None
    else if Populated(events, keys[0]) then Some(0)
    else match FirstPopulated(events, keys[1..])
      case None => None
      case Some(i) => Some(i + 1)
  }

  /** `_get_pupil_datums`: the list and key of the first candidate channel
      holding a non-empty list, or `([], "")` when there is none. */
  function GetPupilDatums(events: EventBatch): (r: (seq<Datum>, string))
    ensures r.0 == [] <==> forall j :: 0 <= j < |CANDIDATE_KEYS| ==> !Populated(events, CANDIDATE_KEYS[j])
    ensures r.0 == [] ==> r.1 == ""
    ensures r.0 != [] ==> r.1 in events && events[r.1] == DatumList(r.0)
    ensures r.0 != [] ==>
      exists i :: 0 <= i < |CANDIDATE_KEYS| && CANDIDATE_KEYS[i] == r.1 &&
        forall j :: 0 <= j < i ==> !Populated(events, CANDIDATE_KEYS[j])
  {
    match FirstPopulated(events, CANDIDATE_KEYS)
    case None => ([], "")
    case Some(i) =>
      var key := CANDIDATE_KEYS[i];
      (events[key].datums, key)
  }

  /** The datum's eye id: "id" when that key is present, else "eye_id". */
  function EyeIdOf(d: Datum): (r: Option<IdValue>)
    ensures d.id.Some? ==> r == d.id
    ensures r.Some? ==> r == d.id || r == d.eyeId
    ensures r.None? <==> d.id.None? && d.eyeId.None?
  {
    if d.id.Some? then d.id else d.eyeId
  }

  /** The datum belongs to the target eye; every datum does when there is
      no target. */
  predicate IsTarget(d: Datum, target: Option<int>) {
    target.None? || EyeIdOf(d) == Some(IntId(target.value))
  }

  /** The index of the most recent datum of the target eye, if any. */
  function LastMatch(datums: seq<Datum>, target: Option<int>): (r: Option<nat>)
    ensures r.Some? ==> r.value < |datums| && IsTarget(datums[r.value], target)
    ensures r.Some? ==> forall j :: r.value < j < |datums| ==> !IsTarget(datums[j], target)
    ensures r.None? ==> forall j :: 0 <= j < |datums| ==> !IsTarget(datums[j], target)
  {
    if datums == [] then None
    else if IsTarget(datums[|datums| - 1], target) then Some(|datums| - 1)
    else LastMatch(datums[..|datums| - 1], target)
  }

  /** A target-eye datum with no target-eye datum after it is the one
      `LastMatch` picks. */
  lemma LastMatchAt(datums: seq<Datum>, target: Option<int>, i: nat)
    requires i < |datums| && IsTarget(datums[i], target)
    requires forall j :: i < j < |datums| ==> !IsTarget(datums[j], target)
    ensures LastMatch(datums, target) == Some(i)
  {
  }

  /** Without a target eye the most recent datum is taken. */
  lemma LastMatchAnyEye(datums: seq<Datum>)
    requires datums != []
    ensures LastMatch(datums, None) == Some(|datums| - 1)
  {
  }

  /** The confidence, -1.0 when absent. */
  function Confidence(d: Datum): (c: real)
    ensures d.confidence.Some? ==> c == d.confidence.value
    ensures d.confidence.None? ==> c == -1.0
  {
    d.confidence.GetOr(-1.0)
  }

  /** `_frame_size`: the two components of the capture's frame size when it
      is present and has exactly two of them, otherwise `(1.0, 1.0)`. */
  function FrameSize(frameSize: Option<seq<real>>): (r: (real, real))
    ensures frameSize.Some? && |frameSize.value| == 2 ==> r == (frameSize.value[0], frameSize.value[1])
    ensures !(frameSize.Some? && |frameSize.value| == 2) ==> r == (1.0, 1.0)
  {
    match frameSize
    case Some(fs) => if |fs| == 2 then (fs[0], fs[1]) else (1.0, 1.0)
    case None => (1.0, 1.0)
  }

  /** The eye label of the process: "eye0" or "eye1" for host eye ids 0 and
      1, "unknown-eye" for any other value or none. */
  function EyeLabel(processEyeId: IdValue): (r: string)
    ensures r == "eye0" <==> processEyeId == IntId(0)
    ensures r == "eye1" <==> processEyeId == IntId(1)
    ensures r == "unknown-eye" <==> processEyeId != IntId(0) && processEyeId != IntId(1)
  {
    match processEyeId
    case IntId(n) => if n == 0 then "eye0" else if n == 1 then "eye1" else "unknown-eye"
    case OtherId => "unknown-eye"
  }
}
