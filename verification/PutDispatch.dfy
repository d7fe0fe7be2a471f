/**
 The write path of a typed PV runtime: admission, dispatch behind the generation fence, the Redis write and
 its confirmation, against reloads, retirement, reader reconnects and source samples.  `alive`, `committed`,
 the command epoch and a request's stopped flag are atomics read without the runtime's mutex; every other
 step is one mutex-held region.  The region that issues the write is split in two, because `alive` can change
 while it holds the mutex.  Values are sequences of reals; rounding is not modelled.
 */
module PutDispatch {
  import opened Basics

  type Value = seq<real>
  type PutId = nat
  type StreamId = nat

  /** Configuration validation rejects a zero scale. */
  type Scale = r: real | r != 0.0 witness 1.0

  datatype Linear = Linear(scale: Scale, offset: real)

  function Forward(t: Option<Linear>, raw: Value): Value {
    if t.None? then raw else seq(|raw|, i requires 0 <= i < |raw| => raw[i] * t.value.scale + t.value.offset)
  }

  function Inverse(t: Option<Linear>, present: Value): Value {
    if t.None? then present else seq(|present|, i requires 0 <= i < |present| => (present[i] - t.value.offset) / t.value.scale)
  }

  /** What a written value reads back as under the same transform. */
  lemma InverseThenForward(t: Option<Linear>, present: Value)
    ensures Forward(t, Inverse(t, present)) == present
  {
    if t.Some? {
      forall i | 0 <= i < |present|
        ensures Forward(t, Inverse(t, present))[i] == present[i]
      {
        DivideThenMultiply(present[i] - t.value.offset, t.value.scale);
      }
    }
  }

  lemma DivideThenMultiply(a: real, s: Scale)
    ensures a / s * s == a
  {
  }

  /** Two to the power -52. */
  const EPSILON: real := 1.0 / 4503599627370496.0

  function Abs(x: real): real {
    if x < 0.0 then -x else x
  }

  function Largest(a: real, b: real): real {
    if a < b then b else a
  }

  /** Confirmation compares with a tolerance of eight units in the last place. */
  predicate Close(a: real, b: real) {
    Abs(a - b) <= EPSILON * Largest(1.0, Largest(Abs(a), Abs(b))) * 8.0
  }

  /** Close numbers differ by at most the 2^49th part of one, or of the larger of the two. */
  lemma CloseIs(a: real, b: real)
    ensures var sizes := [1.0, a, -a, b, -b];
            Close(a, b) <==>
              exists i | 0 <= i < |sizes| ::
                562949953421312.0 * (a - b) <= sizes[i] && 562949953421312.0 * (b - a) <= sizes[i]
  {
    var sizes := [1.0, a, -a, b, -b];
    var m := Largest(1.0, Largest(Abs(a), Abs(b)));
    assert m in sizes;
    assert forall i | 0 <= i < |sizes| :: sizes[i] <= m;
    assert 562949953421312.0 * (EPSILON * m * 8.0) == m;
  }

  predicate ValuesEqual(a: Value, b: Value) {
    |a| == |b| && forall i | 0 <= i < |a| :: Close(a[i], b[i])
  }

  // ---- state ----

  datatype Pending = Pending(expected: Value, afterId: StreamId, sourceEpoch: nat, done: bool, error: Option<string>)

  datatype Sample = Sample(id: StreamId, epoch: nat, value: Value)

  datatype Answer = Unanswered | Replied | Errored | Elsewhere

  /** Where dispatchPut is; the data it has gathered so far is in the Put. */
  datatype Place =
    | Arriving                   // `alive` was read as true
    | Admitting                  // so was `committed`; the epoch is not yet read
    | Queued | Entered | Captured | Preparing | Snapshotted
    | Writing                    // holds the mutex, all checks passed
    | Written | Awaiting
    | Deciding(error: bool, confirmed: bool)
    | Thrown                     // left by an exception, which the worker reports
    | Returned

  datatype Put = Put(
    present: Value, place: Place, epoch: nat, transform: Option<Linear>, afterId: StreamId, sourceEpoch: nat,
    since: nat, stopped: bool, answer: Answer)
  {
    /** The raw value computed once the configuration has been captured. */
    function Raw(): Value {
      Inverse(transform, present)
    }
  }

  /** A write command issued: what was sent, the transform in force at that instant, and whether Redis acknowledged it. */
  datatype Write = Write(put: PutId, raw: Value, inForce: Option<Linear>, acknowledged: bool)

  datatype State = State(
    confirms: bool, transform: Option<Linear>, commandEpoch: nat, alive: bool, committed: bool, retired: bool,
    readerEpoch: nat, owner: Option<PutId>, pending: map<PutId, Pending>, puts: map<PutId, Put>,
    writes: seq<Write>, samples: seq<Sample>)

  /** How the fenced region of a dispatch ends. */
  datatype Fence = Pass | Expired | Unauthorized

  /** Steps that concern one put only. */
  datatype Own =
    | Arrive(value: Value) | CheckCommitted | ReadEpoch(fits: bool)
    | StopRequest                      // cancellation, deadline or shutdown finishes the request elsewhere
    | Begin | Capture(decodes: bool)
    | NoteReader | Snapshot(connected: bool, last: StreamId)
    | Conclude(expired: bool) | Decide(expired: bool)
    | Throw                            // an exception outside the write

  datatype WriteResult = Acknowledged | Unacknowledged | Threw

  datatype Step =
    | Activate
    | Commit(transform: Option<Linear>)
    | Deactivate                       // clears `alive`; returns at once if it was clear
    | Retire(reason: string)           // the mutex-held rest of the call that cleared it
    | Reconnect(epoch: nat)            // the confirmation reader starts a new epoch
    | Observe(sample: Sample)          // handleRawUpdate on the confirmation source
    | CheckHealth                      // the epoch check of sourceHealth
    | OwnStep(p: PutId, own: Own)
    | FenceStep(p: PutId, fence: Fence)
    | WriteStep(p: PutId, result: WriteResult)
    | Wake(p: PutId)

  function Fresh(confirms: bool, transform: Option<Linear>): State {
    State(confirms, transform, 0, true, false, false, 1, None, map[], map[], [], [])
  }

  /** The mutex is free. */
  predicate Unlocked(s: State) {
    s.owner.None?
  }

  predicate At(s: State, p: PutId, place: Place) {
    p in s.puts && s.puts[p].place == place
  }

  /** A put arriving at a runtime that is no longer alive is refused. */
  function NewPut(value: Value, alive: bool): Put {
    if alive then Put(value, Arriving, 0, None, 0, 0, 0, false, Unanswered)
    else Put(value, Returned, 0, None, 0, 0, 0, true, Errored)
  }

  /** error() or reply() on the request, unless it was finished elsewhere; dispatchPut returns. */
  function AnswerPut(put: Put, answer: Answer): Put {
    if put.stopped then put.(place := Returned) else put.(place := Returned, stopped := true, answer := answer)
  }

  function Set(s: State, p: PutId, put: Put): State {
    s.(puts := s.puts[p := put])
  }

  function AnswerWith(s: State, p: PutId, answer: Answer): State
    requires p in s.puts
  {
    Set(s, p, AnswerPut(s.puts[p], answer))
  }

  function Move(s: State, p: PutId, place: Place): State
    requires p in s.puts
  {
    Set(s, p, s.puts[p].(place := place))
  }

  // ---- loops over the pending puts ----

  /** failPendingLocked: every pending put is done, with this error. */
  function FailAll(pending: map<PutId, Pending>, reason: string): map<PutId, Pending> {
    map p | p in pending :: pending[p].(done := true, error := Some(reason))
  }

  function Settle1(e: Pending, sample: Sample): Pending {
    if e.done then e
    else if e.sourceEpoch != sample.epoch then e.(done := true, error := Some("confirmation source epoch changed; not retried"))
    else if sample.id > e.afterId && ValuesEqual(e.expected, sample.value) then e.(done := true)
    else e
  }

  function Settle(pending: map<PutId, Pending>, sample: Sample): map<PutId, Pending> {
    map p | p in pending :: Settle1(pending[p], sample)
  }

  function Invalidate1(e: Pending, epoch: nat): Pending {
    if !e.done && e.sourceEpoch != epoch then e.(done := true, error := Some("confirmation source epoch changed; not retried"))
    else e
  }

  function Invalidate(pending: map<PutId, Pending>, epoch: nat): map<PutId, Pending> {
    map p | p in pending :: Invalidate1(pending[p], epoch)
  }

  // ---- steps ----

  /** Waiting for a confirmation does not throw. */
  predicate MayThrow(place: Place) {
    place.Entered? || place.Captured? || place.Preparing? || place.Snapshotted? || place.Written? || place.Deciding?
  }

  ghost predicate OwnPossible(s: State, p: PutId, own: Own) {
    match own
    case Arrive(_) => p !in s.puts
    case CheckCommitted => At(s, p, Arriving)
    case ReadEpoch(_) => At(s, p, Admitting)
    case StopRequest => p in s.puts && !s.puts[p].stopped
    case Begin => At(s, p, Queued)
    case Capture(_) => At(s, p, Entered) && Unlocked(s)
    case NoteReader => At(s, p, Captured) && s.confirms && Unlocked(s)
    case Snapshot(_, _) => At(s, p, Preparing)
    case Conclude(_) => At(s, p, Written)
    case Decide(_) => p in s.puts && s.puts[p].place.Deciding?
    case Throw => p in s.puts && MayThrow(s.puts[p].place)
  }

  ghost predicate Possible(s: State, step: Step) {
    match step
    case Activate => Unlocked(s)
    case Commit(_) => Unlocked(s)
    case Deactivate => true
    case Retire(_) => Unlocked(s) && !s.alive && !s.retired
    case Reconnect(epoch) => epoch > s.readerEpoch
    case Observe(_) => Unlocked(s)
    case CheckHealth => Unlocked(s)
    case OwnStep(p, own) => OwnPossible(s, p, own)
    case FenceStep(p, _) => At(s, p, if s.confirms then Snapshotted else Captured) && Unlocked(s)
    case WriteStep(p, _) => At(s, p, Writing)
    case Wake(p) => At(s, p, Awaiting) && Unlocked(s)
  }

  /** What one of its own steps makes of a put. */
  ghost function OwnEffect(s: State, p: PutId, own: Own): Put
    requires OwnPossible(s, p, own)
  {
    match own
    case Arrive(value) => NewPut(value, s.alive)
    case CheckCommitted => if s.committed then s.puts[p].(place := Admitting) else AnswerPut(s.puts[p], Errored)
    case ReadEpoch(fits) =>
      if fits then s.puts[p].(place := Queued, epoch := s.commandEpoch) else AnswerPut(s.puts[p], Errored)
    case StopRequest => s.puts[p].(stopped := true, answer := Elsewhere)
    case Begin => s.puts[p].(place := if s.puts[p].stopped then Returned else Entered)
    case Capture(decodes) =>
      if !s.alive || !s.committed || s.commandEpoch != s.puts[p].epoch || !decodes then AnswerPut(s.puts[p], Errored)
      else s.puts[p].(place := Captured, transform := s.transform)
    case NoteReader =>
      if s.puts[p].stopped then s.puts[p].(place := Returned)
      else s.puts[p].(place := Preparing, sourceEpoch := s.readerEpoch)
    case Snapshot(connected, last) =>
      if connected then s.puts[p].(place := Snapshotted, afterId := last) else AnswerPut(s.puts[p], Errored)
    case Conclude(expired) => AnswerPut(s.puts[p], if expired then Errored else Replied)
    case Decide(expired) =>
      var place := s.puts[p].place;
      AnswerPut(s.puts[p], if place.error || expired || !place.confirmed then Errored else Replied)
    case Throw => s.puts[p].(place := Thrown)
  }

  /** The checks of the fenced region, in order; the first that fails ends the dispatch. */
  predicate FencePasses(s: State, put: Put, fence: Fence) {
    && s.alive && s.commandEpoch == put.epoch
    && !put.stopped
    && fence.Pass?
    && (s.confirms ==> put.sourceEpoch == s.readerEpoch)
  }

  /** Passing the fence, the put registers for confirmation and keeps the mutex for its write. */
  function FenceEffect(s: State, p: PutId, fence: Fence): (t: State)
    requires p in s.puts
    ensures t.writes == s.writes && t.confirms == s.confirms && p in t.puts && t.puts == s.puts[p := t.puts[p]]
  {
    var put := s.puts[p];
    if !FencePasses(s, put, fence) then AnswerWith(s, p, Errored)
    else
      Set(s.(owner := Some(p),
             pending := if s.confirms then s.pending[p := Pending(put.Raw(), put.afterId, put.sourceEpoch, false, None)]
                        else s.pending),
          p, put.(place := Writing, since := |s.samples|))
  }

  function WriteEffect(s: State, p: PutId, result: WriteResult): (t: State)
    requires p in s.puts
    ensures t.writes == s.writes + [Write(p, s.puts[p].Raw(), s.transform, result.Acknowledged?)] && t.confirms == s.confirms
    ensures p in t.puts && t.puts == s.puts[p := t.puts[p]]
  {
    var t := s.(owner := None, writes := s.writes + [Write(p, s.puts[p].Raw(), s.transform, result.Acknowledged?)]);
    match result
    case Acknowledged => Move(t, p, if s.confirms then Awaiting else Written)
    case Unacknowledged => AnswerWith(t.(pending := s.pending - {p}), p, Errored)
    case Threw => Move(t.(pending := s.pending - {p}), p, Thrown)
  }

  ghost function Effect(s: State, step: Step): State
    requires Possible(s, step)
  {
    match step
    case Activate => s.(committed := true)
    case Commit(transform) =>
      if transform == s.transform then s
      else s.(transform := transform, commandEpoch := s.commandEpoch + 1,
              pending := FailAll(s.pending, "write transform changed during reload"))
    case Deactivate => s.(alive := false)
    case Retire(reason) => s.(retired := true, commandEpoch := s.commandEpoch + 1, pending := FailAll(s.pending, reason))
    case Reconnect(epoch) => s.(readerEpoch := epoch)
    case Observe(sample) =>
      if !s.alive || sample.epoch != s.readerEpoch then s
      else s.(samples := s.samples + [sample], pending := Settle(s.pending, sample))
    case CheckHealth => if s.alive && s.committed then s.(pending := Invalidate(s.pending, s.readerEpoch)) else s
    case OwnStep(p, own) => Set(s, p, OwnEffect(s, p, own))
    case FenceStep(p, fence) => FenceEffect(s, p, fence)
    case WriteStep(p, result) => WriteEffect(s, p, result)
    case Wake(p) =>
      var e := if p in s.pending then s.pending[p] else Pending([], 0, 0, false, None);
      Move(s.(pending := s.pending - {p}), p, Deciding(e.error.Some?, e.done))
  }

  ghost function Apply(s: State, step: Step): State {
    if Possible(s, step) then Effect(s, step) else s
  }

  ghost function After(s: State, steps: seq<Step>): State {
    if steps == [] then s else Apply(After(s, steps[..|steps| - 1]), steps[|steps| - 1])
  }
}
