/**
 How a put ends, told from its own history: whether a reload or a reconnect came in between, what Redis said to the
 write, which sample or event settled the confirmation first, and whether the deadline had passed at the last check.
 */
module PutCourses {
  import opened Basics
  import opened PutDispatch
  import opened PutTheorems

  /** A confirmation is open, was given by an equal later sample of the same reader epoch, or cannot be had any more. */
  datatype Standing = Open | Confirmed | Spoilt

  /**
   What became of one put.  `value` is what its client sent, `transform` what was captured for it, `reader` the reader epoch
   noted and `afterId` the stream position of its snapshot.  `sound`: every check it came to was passed.  `current`: no
   reload of the transform and no retirement since admission.  `sameReader`: no reconnect since the epoch was noted.
   `since`: how many samples came before the write was issued.  `waiting`: it is registered for confirmation.  `written`:
   whether Redis acknowledged.  `late`: what the last look at the clock said.
   */
  datatype Course = Course(
    value: Value, transform: Option<Linear>, reader: nat, afterId: StreamId, sound: bool, current: bool, sameReader: bool,
    since: nat, waiting: bool, written: Option<bool>, standing: Standing, late: Option<bool>)

  ghost function Untold(): Course {
    Course([], None, 0, 0, false, false, false, 0, false, None, Open, None)
  }

  /** The first sample that speaks decides. */
  ghost function Heard(c: Course, sample: Sample): Standing {
    if !c.standing.Open? then c.standing
    else if sample.epoch != c.reader then Spoilt
    else if sample.id > c.afterId && ValuesEqual(Inverse(c.transform, c.value), sample.value) then Confirmed
    else Open
  }

  /** What one of its own steps in state s adds to the history of a put. */
  ghost function Onward1(c: Course, s: State, own: Own): Course {
    match own
    case Arrive(value) => c.(value := value, sound := s.alive)
    case CheckCommitted => c.(sound := c.sound && s.committed)
    case ReadEpoch(fits) => c.(sound := c.sound && fits, current := true)
    case Capture(decodes) => c.(sound := c.sound && s.alive && s.committed && c.current && decodes, transform := s.transform)
    case NoteReader => c.(reader := s.readerEpoch, sameReader := true)
    case Snapshot(connected, last) => c.(sound := c.sound && connected, afterId := last)
    case Conclude(expired) => c.(late := Some(expired))
    case Decide(expired) => c.(late := Some(expired))
    case _ => c
  }

  /** The dispatch may issue its write. */
  ghost predicate Clear(c: Course, s: State, p: PutId, fence: Fence) {
    c.sound && s.alive && c.current && p in s.puts && !s.puts[p].stopped && fence.Pass? && (s.confirms ==> c.sameReader)
  }

  /** What a step in state s adds to the history of put p. */
  ghost function Onward(c: Course, s: State, step: Step, p: PutId): Course {
    match step
    case OwnStep(q, own) => if q == p then Onward1(c, s, own) else c
    case FenceStep(q, fence) =>
      if q != p then c
      else c.(sound := Clear(c, s, p, fence), waiting := Clear(c, s, p, fence) && s.confirms, since := |s.samples|, standing := Open)
    case WriteStep(q, result) =>
      if q == p then c.(written := Some(result.Acknowledged?), waiting := c.waiting && result.Acknowledged?) else c
    case Wake(q) => if q == p then c.(waiting := false) else c
    case Commit(transform) =>
      if transform == s.transform then c else c.(current := false, standing := if c.waiting then Spoilt else c.standing)
    case Retire(_) => c.(current := false, standing := if c.waiting then Spoilt else c.standing)
    case Reconnect(_) => c.(sameReader := false)
    case Observe(sample) =>
      if s.alive && sample.epoch == s.readerEpoch && c.waiting then c.(standing := Heard(c, sample)) else c
    case CheckHealth =>
      if s.alive && s.committed && c.waiting && c.standing.Open? && c.reader != s.readerEpoch then c.(standing := Spoilt) else c
    case _ => c
  }

  ghost function CourseOf(start: State, steps: seq<Step>, p: PutId): Course {
    if steps == [] then Untold()
    else
      var before, step := steps[..|steps| - 1], steps[|steps| - 1];
      var c := CourseOf(start, before, p);
      if Possible(After(start, before), step) then Onward(c, After(start, before), step, p) else c
  }

  /** The history of a put that succeeds. */
  ghost predicate Succeeds(c: Course, confirms: bool) {
    c.sound && c.written == Some(true) && c.late == Some(false) && (confirms ==> c.standing.Confirmed?)
  }

  /** The history of a put with something to report against it. */
  ghost predicate Fails(c: Course, confirms: bool) {
    || !c.sound
    || c.written == Some(false)
    || c.late == Some(true)
    || (c.late.Some? && confirms && !c.standing.Confirmed?)
  }

  // ---- what ties the history to the runtime ----

  /** All the runtime knows that concerns one put. */
  datatype Scene = Scene(
    confirms: bool, commandEpoch: nat, readerEpoch: nat, put: Put, entry: Option<Pending>, acknowledged: bool)

  ghost function SceneOf(s: State, p: PutId): Scene
    requires p in s.puts
  {
    Scene(s.confirms, s.commandEpoch, s.readerEpoch, s.puts[p], if p in s.pending then Some(s.pending[p]) else None,
          WasAcknowledged(s.writes, p))
  }

  ghost predicate Admitted(place: Place) {
    !place.Arriving? && !place.Admitting? && !place.Returned? && !place.Thrown?
  }

  ghost predicate Stands(e: Pending, standing: Standing) {
    match standing
    case Open => !e.done && e.error.None?
    case Confirmed => e.done && e.error.None?
    case Spoilt => e.done && e.error.Some?
  }

  ghost predicate HasReader(place: Place) {
    place.Preparing? || place.Snapshotted? || place.Writing? || place.Awaiting? || place.Deciding?
  }

  /** The request and its answer. */
  ghost predicate AnswerFits(x: Scene, c: Course) {
    var put := x.put;
    && put.present == c.value
    && (!put.place.Returned? ==> c.late.None? && !put.answer.Replied? && !put.answer.Errored?)
    && (!put.place.Returned? && !put.place.Thrown? ==> c.sound)
    && (put.answer.Replied? || put.answer.Errored? ==>
          (put.answer.Replied? <==> Succeeds(c, x.confirms)) && (put.answer.Errored? <==> Fails(c, x.confirms)))
    && (put.answer.Replied? && x.confirms ==>
          put.since == c.since && put.transform == c.transform && put.sourceEpoch == c.reader && put.afterId == c.afterId)
    && (put.stopped <==> !put.answer.Unanswered?)
  }

  /** What the dispatch has gathered. */
  ghost predicate GatheredFits(x: Scene, c: Course) {
    var put := x.put;
    && (Admitted(put.place) ==> put.epoch <= x.commandEpoch && (c.current <==> put.epoch == x.commandEpoch))
    && (Admitted(put.place) && !put.place.Queued? && !put.place.Entered? ==> put.transform == c.transform)
    && (HasReader(put.place) && x.confirms ==> put.sourceEpoch == c.reader)
    && (put.place.Preparing? ==> x.confirms)
    && (put.place.Preparing? || put.place.Snapshotted? ==> c.reader <= x.readerEpoch && (c.sameReader <==> c.reader == x.readerEpoch))
    && (HasReader(put.place) && !put.place.Preparing? && x.confirms ==> put.afterId == c.afterId)
    && (put.place.Snapshotted? ==> x.confirms)
  }

  /** The write and its confirmation. */
  ghost predicate WriteFits(x: Scene, c: Course) {
    var put := x.put;
    && ((c.written == Some(true)) <==> x.acknowledged)
    && (put.place.Written? || put.place.Awaiting? || put.place.Deciding? ==> c.written == Some(true))
    && (!PastWrite(put.place) ==> c.written.None?)
    && (put.place.Writing? || put.place.Awaiting? || put.place.Deciding? ==> put.since == c.since)
    && (c.waiting <==> x.confirms && (put.place.Writing? || put.place.Awaiting?))
    && (c.waiting <==> x.entry.Some?)
    && (c.waiting ==> Stands(x.entry.value, c.standing) && x.entry.value.expected == Inverse(c.transform, c.value)
                      && x.entry.value.afterId == c.afterId && x.entry.value.sourceEpoch == c.reader)
    && (put.place.Deciding? ==>
          (put.place.error <==> c.standing.Spoilt?) && (put.place.confirmed <==> !c.standing.Open?))
    && (put.place.Written? ==> !x.confirms) && (put.place.Deciding? || put.place.Awaiting? ==> x.confirms)
  }

  ghost predicate Fits(x: Scene, c: Course) {
    AnswerFits(x, c) && GatheredFits(x, c) && WriteFits(x, c)
  }

  ghost predicate CourseOk(s: State, p: PutId, c: Course) {
    if p in s.puts then Fits(SceneOf(s, p), c) else c == Untold() && p !in s.pending && !WasAcknowledged(s.writes, p)
  }

  // ---- steps of the put itself ----

  lemma OwnFits(s: State, p: PutId, own: Own, c: Course)
    requires CourseOk(s, p, c) && OwnPossible(s, p, own)
    ensures CourseOk(Set(s, p, OwnEffect(s, p, own)), p, Onward(c, s, OwnStep(p, own), p))
  {
    hide WasAcknowledged, ValuesEqual, Inverse;
  }

  lemma FenceFits(s: State, p: PutId, fence: Fence, c: Course)
    requires CourseOk(s, p, c) && Possible(s, FenceStep(p, fence))
    ensures CourseOk(FenceEffect(s, p, fence), p, Onward(c, s, FenceStep(p, fence), p))
  {
    hide WasAcknowledged, ValuesEqual, Inverse;
  }

  ghost function SceneWritten(x: Scene, result: WriteResult): Scene {
    match result
    case Acknowledged => x.(put := x.put.(place := if x.confirms then Awaiting else Written), acknowledged := true)
    case Unacknowledged => x.(put := AnswerPut(x.put, Errored), entry := None)
    case Threw => x.(put := x.put.(place := Thrown), entry := None)
  }

  lemma SceneWrittenFits(x: Scene, result: WriteResult, s: State, p: PutId, c: Course)
    requires Fits(x, c) && x.put.place.Writing?
    ensures Fits(SceneWritten(x, result), Onward(c, s, WriteStep(p, result), p))
  {
    hide Inverse;
  }

  lemma SceneOfWritten(s: State, p: PutId, result: WriteResult)
    requires At(s, p, Writing)
    ensures var t := WriteEffect(s, p, result); p in t.puts && SceneOf(t, p) == SceneWritten(SceneOf(s, p), result)
  {
    WriteLogged(s.writes, Write(p, s.puts[p].Raw(), s.transform, result.Acknowledged?), p);
    hide WasAcknowledged, Inverse;
  }

  lemma WriteStepFits(s: State, p: PutId, result: WriteResult, c: Course)
    requires CourseOk(s, p, c) && At(s, p, Writing)
    ensures CourseOk(WriteEffect(s, p, result), p, Onward(c, s, WriteStep(p, result), p))
  {
    hide WriteEffect, SceneWritten, Fits, Onward;
    SceneOfWritten(s, p, result);
    SceneWrittenFits(SceneOf(s, p), result, s, p, c);
  }

  lemma WakeFits(s: State, p: PutId, c: Course)
    requires CourseOk(s, p, c) && Possible(s, Wake(p))
    ensures CourseOk(Effect(s, Wake(p)), p, Onward(c, s, Wake(p), p))
  {
    hide WasAcknowledged, ValuesEqual, Inverse, OwnEffect;
  }

  // ---- steps of others ----

  /** The step leaves everything about the put alone. */
  lemma ElsewhereFits(s: State, t: State, p: PutId, c: Course)
    requires CourseOk(s, p, c) && (p in t.puts <==> p in s.puts) && (p in s.puts ==> t.puts[p] == s.puts[p])
    requires (p in t.pending <==> p in s.pending) && (p in s.pending ==> t.pending[p] == s.pending[p])
    requires t.confirms == s.confirms && t.commandEpoch == s.commandEpoch && t.readerEpoch == s.readerEpoch
    requires WasAcknowledged(t.writes, p) <==> WasAcknowledged(s.writes, p)
    ensures CourseOk(t, p, c)
  {
  }

  lemma OtherFenceFits(s: State, p: PutId, q: PutId, fence: Fence, c: Course)
    requires CourseOk(s, p, c) && q in s.puts && q != p
    ensures CourseOk(FenceEffect(s, q, fence), p, c)
  {
    hide WasAcknowledged, FencePasses, CourseOk;
    ElsewhereFits(s, FenceEffect(s, q, fence), p, c);
  }

  lemma OtherWriteFits(s: State, p: PutId, q: PutId, result: WriteResult, c: Course)
    requires CourseOk(s, p, c) && q in s.puts && q != p
    ensures CourseOk(WriteEffect(s, q, result), p, c)
  {
    var t := WriteEffect(s, q, result);
    hide CourseOk;
    assert WasAcknowledged(t.writes, p) <==> WasAcknowledged(s.writes, p) by {
      hide *;
      WriteLogged(s.writes, Write(q, s.puts[q].Raw(), s.transform, result.Acknowledged?), p);
    }
    hide WasAcknowledged, Inverse, AnswerPut;
    ElsewhereFits(s, t, p, c);
  }

  lemma OthersFits(s: State, step: Step, p: PutId, c: Course)
    requires CourseOk(s, p, c) && Possible(s, step)
    requires (step.OwnStep? || step.FenceStep? || step.WriteStep? || step.Wake?) && step.p != p
    ensures CourseOk(Effect(s, step), p, c) && Onward(c, s, step, p) == c
  {
    hide WasAcknowledged, OwnEffect, FenceEffect, WriteEffect, CourseOk;
    match step
    case FenceStep(q, fence) => OtherFenceFits(s, p, q, fence, c);
    case WriteStep(q, result) => OtherWriteFits(s, p, q, result, c);
    case OwnStep(_, _) => ElsewhereFits(s, Effect(s, step), p, c);
    case Wake(_) => ElsewhereFits(s, Effect(s, step), p, c);
  }

  lemma ObserveFits(s: State, sample: Sample, p: PutId, c: Course)
    requires CourseOk(s, p, c) && Possible(s, Observe(sample))
    ensures CourseOk(Effect(s, Observe(sample)), p, Onward(c, s, Observe(sample), p))
  {
    hide WasAcknowledged, OwnEffect, FailAll, Invalidate, ValuesEqual, Inverse, FenceEffect, WriteEffect;
  }

  lemma ReloadFits(s: State, step: Step, p: PutId, c: Course)
    requires CourseOk(s, p, c) && Possible(s, step) && (step.Commit? || step.Retire?)
    ensures CourseOk(Effect(s, step), p, Onward(c, s, step, p))
  {
    hide WasAcknowledged, OwnEffect, Settle, Invalidate, ValuesEqual, Inverse, FenceEffect, WriteEffect;
  }

  lemma ReconnectFits(s: State, epoch: nat, p: PutId, c: Course)
    requires CourseOk(s, p, c) && Possible(s, Reconnect(epoch))
    ensures CourseOk(s.(readerEpoch := epoch), p, c.(sameReader := false))
  {
    hide WasAcknowledged, Inverse;
  }

  lemma HealthFits(s: State, p: PutId, c: Course)
    requires CourseOk(s, p, c)
    ensures CourseOk(s.(pending := Invalidate(s.pending, s.readerEpoch)), p,
                     if c.waiting && c.standing.Open? && c.reader != s.readerEpoch then c.(standing := Spoilt) else c)
  {
    hide WasAcknowledged, Inverse;
  }

  lemma ReaderFits(s: State, step: Step, p: PutId, c: Course)
    requires CourseOk(s, p, c) && Possible(s, step)
    requires step.Reconnect? || step.CheckHealth? || step.Activate? || step.Deactivate?
    ensures CourseOk(Effect(s, step), p, Onward(c, s, step, p))
  {
    hide CourseOk, WasAcknowledged, OwnEffect, Settle, FailAll, Invalidate, Inverse, OwnPossible;
    if step.Reconnect? {
      ReconnectFits(s, step.epoch, p, c);
    } else if step.CheckHealth? {
      HealthFits(s, p, c);
    } else {
      ElsewhereFits(s, Effect(s, step), p, c);
    }
  }

  // ---- runs ----

  lemma StepFits(s: State, step: Step, p: PutId, c: Course)
    requires CourseOk(s, p, c) && Possible(s, step)
    ensures CourseOk(Effect(s, step), p, Onward(c, s, step, p))
  {
    hide CourseOk, WasAcknowledged, FailAll, Settle, Invalidate, OwnEffect, FenceEffect, WriteEffect, Onward;
    match step
    case OwnStep(q, own) =>
      if q == p { OwnFits(s, p, own, c); } else { OthersFits(s, step, p, c); }
    case FenceStep(q, fence) =>
      if q == p { FenceFits(s, p, fence, c); } else { OthersFits(s, step, p, c); }
    case WriteStep(q, result) =>
      if q == p { WriteStepFits(s, p, result, c); } else { OthersFits(s, step, p, c); }
    case Wake(q) =>
      if q == p { WakeFits(s, p, c); } else { OthersFits(s, step, p, c); }
    case Observe(sample) => ObserveFits(s, sample, p, c);
    case Commit(_) => ReloadFits(s, step, p, c);
    case Retire(_) => ReloadFits(s, step, p, c);
    case _ => ReaderFits(s, step, p, c);
  }

  lemma {:induction false} RunFits(confirms: bool, transform: Option<Linear>, steps: seq<Step>, p: PutId)
    ensures CourseOk(After(Fresh(confirms, transform), steps), p, CourseOf(Fresh(confirms, transform), steps, p))
    decreases |steps|
  {
    if steps != [] {
      var before := steps[..|steps| - 1];
      RunFits(confirms, transform, before, p);
      hide CourseOk, Possible, Effect, Onward;
      if Possible(After(Fresh(confirms, transform), before), steps[|steps| - 1]) {
        StepFits(After(Fresh(confirms, transform), before), steps[|steps| - 1], p, CourseOf(Fresh(confirms, transform), before, p));
      }
    }
  }

  // ---- promises ----

  /**
   A put that its own dispatch answered was answered with success if and only if it passed every check, Redis acknowledged
   its write, the deadline had not passed at the last look and, if the endpoint confirms, an equal later sample of its
   reader epoch was the first to speak, with no reload or retirement before it woke.  It was answered with an error if and
   only if one of these was found wanting.
   */
  lemma RepliedIff(confirms: bool, transform: Option<Linear>, steps: seq<Step>, p: PutId)
    requires var s := After(Fresh(confirms, transform), steps);
             p in s.puts && s.puts[p].place.Returned? && !s.puts[p].answer.Elsewhere?
    ensures var s := After(Fresh(confirms, transform), steps);
            && (s.puts[p].answer.Replied? || s.puts[p].answer.Errored?)
            && (s.puts[p].answer.Replied? <==> Succeeds(CourseOf(Fresh(confirms, transform), steps, p), confirms))
            && (s.puts[p].answer.Errored? <==> Fails(CourseOf(Fresh(confirms, transform), steps, p), confirms))
  {
    RunFits(confirms, transform, steps, p);
    RunKeepsInv(confirms, transform, steps);
    ConfirmsStays(confirms, transform, steps);
    PutFacts(After(Fresh(confirms, transform), steps), p);
  }

  /** A confirmed success was seen back: an equal sample of the noted epoch, past the snapshot, after the write was issued. */
  lemma ConfirmedIsSeen(transform: Option<Linear>, steps: seq<Step>, p: PutId)
    requires var s := After(Fresh(true, transform), steps); p in s.puts && s.puts[p].answer.Replied?
    ensures var s, c := After(Fresh(true, transform), steps), CourseOf(Fresh(true, transform), steps, p);
            exists k | c.since <= k < |s.samples| ::
              s.samples[k].epoch == c.reader && s.samples[k].id > c.afterId
              && ValuesEqual(Inverse(c.transform, c.value), s.samples[k].value)
  {
    RunFits(true, transform, steps, p);
    ConfirmsStays(true, transform, steps);
    ConfirmedMeansObserved(transform, steps, p);
    hide After, CourseOf, ValuesEqual, Inverse;
  }

  /**
   A write is issued if and only if the runtime is alive, nothing reloaded or retired it since admission, the request is
   neither stopped nor late nor unauthorized, and the confirmation reader has not reconnected since it was noted.
   */
  lemma FencePassesIff(confirms: bool, transform: Option<Linear>, steps: seq<Step>, p: PutId, fence: Fence)
    requires Possible(After(Fresh(confirms, transform), steps), FenceStep(p, fence))
    ensures var s, c := After(Fresh(confirms, transform), steps), CourseOf(Fresh(confirms, transform), steps, p);
            var t := Apply(s, FenceStep(p, fence));
            && p in s.puts && p in t.puts
            && (t.puts[p].place.Writing? <==>
                  s.alive && c.current && !s.puts[p].stopped && fence.Pass? && (confirms ==> c.sameReader))
            && (!t.puts[p].place.Writing? ==> t.puts[p].place.Returned?)
  {
    RunFits(confirms, transform, steps, p);
    ConfirmsStays(confirms, transform, steps);
    hide After, CourseOf;
  }

  /** A dispatch goes on with the configuration if and only if the runtime is as it was at admission and the value decodes. */
  lemma CapturesIff(confirms: bool, transform: Option<Linear>, steps: seq<Step>, p: PutId, decodes: bool)
    requires Possible(After(Fresh(confirms, transform), steps), OwnStep(p, Capture(decodes)))
    ensures var s, c := After(Fresh(confirms, transform), steps), CourseOf(Fresh(confirms, transform), steps, p);
            var t := Apply(s, OwnStep(p, Capture(decodes)));
            && p in t.puts
            && (t.puts[p].place.Captured? <==> s.alive && s.committed && c.current && decodes)
            && (t.puts[p].place.Captured? ==> t.puts[p].transform == s.transform)
            && (!t.puts[p].place.Captured? ==> t.puts[p].place.Returned?)
  {
    RunFits(confirms, transform, steps, p);
    hide After, CourseOf;
  }
}
