/** What the write path promises under every interleaving. */
module PutTheorems {
  import opened Basics
  import opened PutDispatch

  ghost predicate HoldsConfig(place: Place) {
    place.Captured? || place.Preparing? || place.Snapshotted? || place.Writing?
  }

  ghost predicate PastWrite(place: Place) {
    place.Written? || place.Awaiting? || place.Deciding? || place.Thrown? || place.Returned?
  }

  /** A put that still has its admission epoch captured the transform now in force; only the owner of the mutex writes. */
  ghost predicate FenceOk(s: State, p: PutId, put: Put) {
    && put.epoch <= s.commandEpoch
    && (HoldsConfig(put.place) && put.epoch == s.commandEpoch ==> put.transform == s.transform)
    && (put.place.Writing? <==> s.owner == Some(p))
    && (put.place.Writing? ==> put.epoch == s.commandEpoch)
  }

  ghost predicate FencesOk(s: State) {
    && (forall p | p in s.puts :: FenceOk(s, p, s.puts[p]))
    && (s.owner.Some? ==> s.owner.value in s.puts && !s.retired)
    && (s.retired ==> !s.alive)
  }

  /** Each put is written at most once, with the value its client sent under the transform in force. */
  ghost predicate WritesOk(s: State) {
    && (forall i | 0 <= i < |s.writes| :: WriteOk(s, s.writes[i]))
    && (forall i, j | 0 <= i < j < |s.writes| :: s.writes[i].put != s.writes[j].put)
  }

  ghost predicate WriteOk(s: State, w: Write) {
    && w.put in s.puts && PastWrite(s.puts[w.put].place)
    && w.raw == s.puts[w.put].Raw() && w.inForce == s.puts[w.put].transform
  }

  ghost predicate WasAcknowledged(writes: seq<Write>, p: PutId) {
    exists i | 0 <= i < |writes| :: writes[i].put == p && writes[i].acknowledged
  }

  ghost predicate Witness(put: Put, sample: Sample) {
    sample.epoch == put.sourceEpoch && sample.id > put.afterId && ValuesEqual(put.Raw(), sample.value)
  }

  /** An equal sample of the put's reader epoch, newer than its snapshot, was observed after its write was issued. */
  ghost predicate Observed(samples: seq<Sample>, put: Put) {
    exists k | put.since <= k < |samples| :: Witness(put, samples[k])
  }

  ghost predicate PendingOk(s: State, e: Pending, put: Put) {
    && s.confirms
    && (put.place.Writing? || put.place.Awaiting?)
    && e.expected == put.Raw() && e.afterId == put.afterId && e.sourceEpoch == put.sourceEpoch
    && put.since <= |s.samples|
    && (put.place.Writing? ==> !e.done)
    && (e.done && e.error.None? ==> Observed(s.samples, put))
  }

  ghost predicate AnswerOk(s: State, p: PutId, put: Put) {
    && (put.place.Returned? ==> put.stopped)
    && (!put.place.Returned? && put.stopped ==> put.answer == Elsewhere)
    && (put.stopped <==> !put.answer.Unanswered?)
    && (put.place.Written? || put.place.Awaiting? || put.place.Deciding? || put.answer.Replied? ==> WasAcknowledged(s.writes, p))
    && (put.place == Deciding(false, true) ==> Observed(s.samples, put))
    && (put.answer.Replied? && s.confirms ==> Observed(s.samples, put))
    && (put.place.Written? ==> !s.confirms)
    && (put.place.Deciding? || put.place.Awaiting? ==> s.confirms)
    && (put.place.Awaiting? || (put.place.Writing? && s.confirms) ==> p in s.pending)
  }

  ghost predicate ConfirmOk(s: State) {
    && (forall p | p in s.pending :: p in s.puts && PendingOk(s, s.pending[p], s.puts[p]))
    && (forall p | p in s.puts :: AnswerOk(s, p, s.puts[p]))
  }

  ghost predicate Inv(s: State) {
    FencesOk(s) && WritesOk(s) && ConfirmOk(s)
  }

  /** Steps that touch no put and issue no write. */
  ghost predicate Shared(step: Step) {
    step.Activate? || step.Commit? || step.Deactivate? || step.Retire? || step.Reconnect? || step.Observe? || step.CheckHealth?
  }

  // ---- fences ----

  lemma FencesShared(s: State, step: Step)
    requires FencesOk(s) && Possible(s, step) && Shared(step)
    ensures FencesOk(Effect(s, step)) && Effect(s, step).puts == s.puts && Effect(s, step).writes == s.writes
  {
    hide OwnEffect, OwnPossible, FenceEffect, WriteEffect, FailAll, Settle, Invalidate;
  }

  lemma FenceOwn(s: State, p: PutId, own: Own)
    requires OwnPossible(s, p, own) && s.owner != Some(p)
    requires p in s.puts ==> FenceOk(s, p, s.puts[p])
    ensures FenceOk(s, p, OwnEffect(s, p, own))
  {
  }

  lemma FencesOwn(s: State, p: PutId, own: Own)
    requires FencesOk(s) && OwnPossible(s, p, own)
    ensures FencesOk(Set(s, p, OwnEffect(s, p, own)))
  {
    hide OwnEffect;
    if s.owner == Some(p) {
      assert FenceOk(s, p, s.puts[p]);
      OwnerOnlyStops(s, p, own);
    } else {
      FenceOwn(s, p, own);
    }
  }

  /** The put that holds the mutex can only be finished elsewhere. */
  lemma OwnerOnlyStops(s: State, p: PutId, own: Own)
    requires OwnPossible(s, p, own) && At(s, p, Writing)
    ensures own == StopRequest && OwnEffect(s, p, own) == s.puts[p].(stopped := true, answer := Elsewhere)
  {
  }

  lemma FencesFence(s: State, p: PutId, fence: Fence)
    requires FencesOk(s) && Possible(s, FenceStep(p, fence))
    ensures FencesOk(FenceEffect(s, p, fence))
  {
    assert FenceOk(s, p, s.puts[p]);
  }

  lemma FencesWrite(s: State, p: PutId, result: WriteResult)
    requires FencesOk(s) && At(s, p, Writing)
    ensures FencesOk(WriteEffect(s, p, result))
  {
    assert FenceOk(s, p, s.puts[p]);
  }

  lemma FencesWake(s: State, p: PutId)
    requires FencesOk(s) && Possible(s, Wake(p))
    ensures FencesOk(Effect(s, Wake(p)))
  {
    assert FenceOk(s, p, s.puts[p]);
  }

  lemma FencesKept(s: State, step: Step)
    requires FencesOk(s)
    ensures FencesOk(Apply(s, step))
  {
    hide FencesOk, FenceEffect, WriteEffect, OwnEffect;
    if Possible(s, step) {
      match step
      case OwnStep(p, own) => FencesOwn(s, p, own);
      case FenceStep(p, fence) => FencesFence(s, p, fence);
      case WriteStep(p, result) => FencesWrite(s, p, result);
      case Wake(p) => FencesWake(s, p);
      case _ => FencesShared(s, step);
    }
  }

  // ---- writes ----

  /** What a put keeps once it is past its write. */
  ghost predicate Keeps(a: Put, b: Put) {
    && PastWrite(b.place)
    && b == a.(place := b.place, stopped := b.stopped, answer := b.answer)
  }

  lemma OwnKeeps(s: State, p: PutId, own: Own)
    requires OwnPossible(s, p, own) && p in s.puts && PastWrite(s.puts[p].place)
    ensures Keeps(s.puts[p], OwnEffect(s, p, own))
  {
  }

  /** A step that issues no write and changes one put keeps what is known about the writes. */
  lemma WritesStay(s: State, t: State, p: PutId, put: Put)
    requires WritesOk(s) && t.writes == s.writes && t.puts == s.puts[p := put]
    requires p in s.puts && PastWrite(s.puts[p].place) ==> Keeps(s.puts[p], put)
    ensures WritesOk(t)
  {
    forall i | 0 <= i < |t.writes|
      ensures WriteOk(t, t.writes[i])
    {
      assert WriteOk(s, s.writes[i]);
    }
  }

  lemma WritesSame(s: State, t: State)
    requires WritesOk(s) && t.writes == s.writes && t.puts == s.puts
    ensures WritesOk(t)
  {
    forall i | 0 <= i < |t.writes|
      ensures WriteOk(t, t.writes[i])
    {
      assert WriteOk(s, s.writes[i]);
    }
  }

  lemma WriteKeepsWrites(s: State, p: PutId, result: WriteResult)
    requires FencesOk(s) && WritesOk(s) && At(s, p, Writing)
    ensures WritesOk(WriteEffect(s, p, result))
  {
    var t := WriteEffect(s, p, result);
    assert FenceOk(s, p, s.puts[p]);
    forall i | 0 <= i < |t.writes|
      ensures WriteOk(t, t.writes[i]) && (i < |s.writes| ==> t.writes[i].put != p)
    {
      if i < |s.writes| {
        assert WriteOk(s, s.writes[i]);
      }
    }
  }

  lemma WritesKept(s: State, step: Step)
    requires FencesOk(s) && WritesOk(s)
    ensures WritesOk(Apply(s, step))
  {
    hide FencesOk, WritesOk, FenceEffect, WriteEffect, OwnEffect;
    if Possible(s, step) {
      match step
      case OwnStep(p, own) =>
        if p in s.puts && PastWrite(s.puts[p].place) {
          OwnKeeps(s, p, own);
        }
        WritesStay(s, Effect(s, step), p, OwnEffect(s, p, own));
      case WriteStep(p, result) => WriteKeepsWrites(s, p, result);
      case FenceStep(p, fence) => WritesStay(s, FenceEffect(s, p, fence), p, FenceEffect(s, p, fence).puts[p]);
      case Wake(p) => WritesStay(s, Effect(s, step), p, Effect(s, step).puts[p]);
      case _ =>
        FencesShared(s, step);
        WritesSame(s, Effect(s, step));
    }
  }

  // ---- confirmations ----

  lemma ObservedStays(samples: seq<Sample>, more: seq<Sample>, a: Put, b: Put)
    requires Observed(samples, a) && samples <= more
    requires b == a.(place := b.place, stopped := b.stopped, answer := b.answer)
    ensures Observed(more, b)
  {
    var k :| a.since <= k < |samples| && Witness(a, samples[k]);
    assert more[k] == samples[k];
    assert Witness(b, more[k]);
  }

  lemma AcknowledgedStays(writes: seq<Write>, more: seq<Write>, p: PutId)
    requires WasAcknowledged(writes, p) && writes <= more
    ensures WasAcknowledged(more, p)
  {
    var i :| 0 <= i < |writes| && writes[i].put == p && writes[i].acknowledged;
    assert more[i] == writes[i];
  }

  lemma WriteLogged(writes: seq<Write>, w: Write, p: PutId)
    ensures WasAcknowledged(writes + [w], p) <==> WasAcknowledged(writes, p) || (w.put == p && w.acknowledged)
  {
    if w.put == p && w.acknowledged {
      assert (writes + [w])[|writes|] == w;
    }
    if WasAcknowledged(writes, p) {
      AcknowledgedStays(writes, writes + [w], p);
    }
  }

  /** A put that a step does not touch keeps its guarantees when the logs grow. */
  lemma OtherStays(s: State, t: State, p: PutId, put: Put)
    requires AnswerOk(s, p, put) && t.confirms == s.confirms && s.samples <= t.samples && s.writes <= t.writes
    requires p in s.pending ==> p in t.pending
    ensures AnswerOk(t, p, put)
    ensures forall e :: PendingOk(s, e, put) ==> PendingOk(t, e, put)
  {
    if WasAcknowledged(s.writes, p) {
      AcknowledgedStays(s.writes, t.writes, p);
    }
    if Observed(s.samples, put) {
      ObservedStays(s.samples, t.samples, put, put);
    }
  }

  /** A step that changes only put q and its pending entry. */
  lemma OneStepConfirms(s: State, t: State, q: PutId, put: Put)
    requires ConfirmOk(s) && t.confirms == s.confirms && s.samples <= t.samples && s.writes <= t.writes
    requires t.puts == s.puts[q := put] && t.pending - {q} == s.pending - {q}
    requires AnswerOk(t, q, put)
    requires q in t.pending ==> PendingOk(t, t.pending[q], put)
    ensures ConfirmOk(t)
  {
    assert forall p | p != q :: p in t.pending <==> p in t.pending - {q};
    assert forall p | p != q :: p in s.pending <==> p in s.pending - {q};
    assert forall p | p != q && p in t.pending :: t.pending[p] == (t.pending - {q})[p];
    assert forall p | p != q && p in s.pending :: s.pending[p] == (s.pending - {q})[p];
    forall p | p in t.puts && p != q
      ensures AnswerOk(t, p, t.puts[p]) && (p in t.pending ==> PendingOk(t, t.pending[p], t.puts[p]))
    {
      OtherStays(s, t, p, s.puts[p]);
    }
  }

  /** A step of the source or of a reload: every pending entry is re-examined. */
  lemma SharedStepConfirms(s: State, t: State)
    requires ConfirmOk(s) && t.puts == s.puts && t.writes == s.writes && t.confirms == s.confirms && s.samples <= t.samples
    requires t.pending.Keys == s.pending.Keys
    requires forall p | p in t.pending ::
               p in s.puts && (PendingOk(t, s.pending[p], s.puts[p]) ==> PendingOk(t, t.pending[p], s.puts[p]))
    ensures ConfirmOk(t)
  {
    forall p | p in t.puts
      ensures AnswerOk(t, p, t.puts[p]) && (p in t.pending ==> PendingOk(t, t.pending[p], t.puts[p]))
    {
      OtherStays(s, t, p, s.puts[p]);
    }
  }

  lemma NoneWriting(s: State)
    requires FencesOk(s) && ConfirmOk(s) && Unlocked(s)
    ensures forall p | p in s.pending :: p in s.puts && s.puts[p].place.Awaiting?
  {
    forall p | p in s.pending
      ensures p in s.puts && s.puts[p].place.Awaiting?
    {
      assert PendingOk(s, s.pending[p], s.puts[p]);
      assert FenceOk(s, p, s.puts[p]);
    }
  }

  /** Looking at one sample settles a pending entry only if the sample is what it waits for. */
  lemma SettleSound(t: State, e: Pending, put: Put, sample: Sample)
    requires PendingOk(t, e, put) && put.place.Awaiting?
    requires put.since < |t.samples| && t.samples[|t.samples| - 1] == sample
    ensures PendingOk(t, Settle1(e, sample), put)
  {
    if Settle1(e, sample).done && !e.done && Settle1(e, sample).error.None? {
      assert Witness(put, t.samples[|t.samples| - 1]);
    }
  }

  lemma PendingFacts(s: State, p: PutId)
    requires ConfirmOk(s) && p in s.pending
    ensures p in s.puts && PendingOk(s, s.pending[p], s.puts[p])
  {
  }

  lemma PutFacts(s: State, p: PutId)
    requires ConfirmOk(s) && p in s.puts
    ensures AnswerOk(s, p, s.puts[p])
  {
  }

  lemma ObserveConfirms(s: State, sample: Sample)
    requires FencesOk(s) && ConfirmOk(s) && Unlocked(s)
    ensures ConfirmOk(Effect(s, Observe(sample)))
  {
    hide FencesOk, ConfirmOk, PendingOk, Settle1;
    var t := Effect(s, Observe(sample));
    if s.alive && sample.epoch == s.readerEpoch {
      NoneWriting(s);
      forall p | p in t.pending
        ensures p in s.puts && (PendingOk(t, s.pending[p], s.puts[p]) ==> PendingOk(t, t.pending[p], s.puts[p]))
      {
        PendingFacts(s, p);
        SinceBounded(s, s.pending[p], s.puts[p]);
        if PendingOk(t, s.pending[p], s.puts[p]) {
          SettleSound(t, s.pending[p], s.puts[p], sample);
        }
      }
      SharedStepConfirms(s, t);
    }
  }

  lemma SinceBounded(s: State, e: Pending, put: Put)
    requires PendingOk(s, e, put)
    ensures put.since <= |s.samples|
  {
  }

  ghost predicate FailedOrSame(a: Pending, b: Pending) {
    a == b || (b.done && b.error.Some? && b == a.(done := true, error := b.error))
  }

  lemma ReloadConfirms(s: State, t: State)
    requires FencesOk(s) && ConfirmOk(s) && Unlocked(s)
    requires t.puts == s.puts && t.writes == s.writes && t.confirms == s.confirms && t.samples == s.samples
    requires t.pending.Keys == s.pending.Keys
    requires forall p | p in t.pending ::
               FailedOrSame(s.pending[p], t.pending[p])
    ensures ConfirmOk(t)
  {
    hide FencesOk, ConfirmOk;
    NoneWriting(s);
    SharedStepConfirms(s, t);
  }

  lemma FailedAll(pending: map<PutId, Pending>, reason: string, epoch: nat)
    ensures FailAll(pending, reason).Keys == pending.Keys == Invalidate(pending, epoch).Keys
    ensures forall p | p in pending ::
              FailedOrSame(pending[p], FailAll(pending, reason)[p]) && FailedOrSame(pending[p], Invalidate(pending, epoch)[p])
  {
  }

  lemma CommitConfirms(s: State, transform: Option<Linear>)
    requires FencesOk(s) && ConfirmOk(s) && Unlocked(s)
    ensures ConfirmOk(Effect(s, Commit(transform)))
  {
    hide FencesOk, ConfirmOk, FailAll, Invalidate, OwnEffect, FenceEffect, WriteEffect, Settle, FailedOrSame;
    if transform != s.transform {
      var reason := "write transform changed during reload";
      FailedAll(s.pending, reason, 0);
      ReloadConfirms(s, s.(transform := transform, commandEpoch := s.commandEpoch + 1, pending := FailAll(s.pending, reason)));
    }
  }

  lemma RetireConfirms(s: State, reason: string)
    requires FencesOk(s) && ConfirmOk(s) && Possible(s, Retire(reason))
    ensures ConfirmOk(Effect(s, Retire(reason)))
  {
    hide FencesOk, ConfirmOk, FailAll, Invalidate;
    FailedAll(s.pending, reason, 0);
    ReloadConfirms(s, Effect(s, Retire(reason)));
  }

  lemma HealthConfirms(s: State)
    requires FencesOk(s) && ConfirmOk(s) && Unlocked(s)
    ensures ConfirmOk(Effect(s, CheckHealth))
  {
    hide FencesOk, ConfirmOk, FailAll, Invalidate;
    FailedAll(s.pending, "", s.readerEpoch);
    ReloadConfirms(s, Effect(s, CheckHealth));
  }

  lemma OwnAnswer(s: State, p: PutId, own: Own)
    requires OwnPossible(s, p, own) && (p in s.puts ==> AnswerOk(s, p, s.puts[p]))
    requires p in s.pending ==> p in s.puts && PendingOk(s, s.pending[p], s.puts[p])
    ensures AnswerOk(s, p, OwnEffect(s, p, own))
    ensures p in s.pending ==> PendingOk(s, s.pending[p], OwnEffect(s, p, own))
  {
    if p in s.puts {
      var put := OwnEffect(s, p, own);
      if PastWrite(s.puts[p].place) || own == StopRequest {
        if Observed(s.samples, s.puts[p]) {
          ObservedStays(s.samples, s.samples, s.puts[p], put);
        }
      }
    }
  }

  lemma OwnConfirms(s: State, p: PutId, own: Own)
    requires ConfirmOk(s) && OwnPossible(s, p, own)
    ensures ConfirmOk(Set(s, p, OwnEffect(s, p, own)))
  {
    hide ConfirmOk, OwnEffect, AnswerOk, PendingOk;
    if p in s.puts {
      PutFacts(s, p);
    }
    if p in s.pending {
      PendingFacts(s, p);
    }
    OwnAnswer(s, p, own);
    var t := Set(s, p, OwnEffect(s, p, own));
    SameLogs(s, t, p, OwnEffect(s, p, own));
    OneStepConfirms(s, t, p, OwnEffect(s, p, own));
  }

  lemma SameLogs(s: State, t: State, p: PutId, put: Put)
    requires t.confirms == s.confirms && t.samples == s.samples && t.writes == s.writes && t.pending == s.pending
    ensures AnswerOk(s, p, put) <==> AnswerOk(t, p, put)
    ensures forall e :: PendingOk(s, e, put) <==> PendingOk(t, e, put)
  {
  }

  lemma FenceConfirms(s: State, p: PutId, fence: Fence)
    requires ConfirmOk(s) && Possible(s, FenceStep(p, fence))
    ensures ConfirmOk(FenceEffect(s, p, fence))
  {
    hide ConfirmOk, Observed, WasAcknowledged;
    var t := FenceEffect(s, p, fence);
    PutFacts(s, p);
    if p in s.pending {
      PendingFacts(s, p);
    }
    OneStepConfirms(s, t, p, t.puts[p]);
  }

  lemma WriteAnswer(s: State, p: PutId, result: WriteResult)
    requires At(s, p, Writing) && AnswerOk(s, p, s.puts[p])
    requires p in s.pending ==> PendingOk(s, s.pending[p], s.puts[p])
    ensures var t := WriteEffect(s, p, result);
            && AnswerOk(t, p, t.puts[p])
            && (p in t.pending ==> PendingOk(t, t.pending[p], t.puts[p]))
            && t.pending - {p} == s.pending - {p} && t.samples == s.samples
  {
    WriteLogged(s.writes, Write(p, s.puts[p].Raw(), s.transform, result.Acknowledged?), p);
    hide WasAcknowledged, Observed, Inverse;
  }

  lemma WriteConfirms(s: State, p: PutId, result: WriteResult)
    requires ConfirmOk(s) && At(s, p, Writing)
    ensures ConfirmOk(WriteEffect(s, p, result))
  {
    hide ConfirmOk, AnswerOk, PendingOk, WriteEffect;
    var t := WriteEffect(s, p, result);
    PutFacts(s, p);
    if p in s.pending {
      PendingFacts(s, p);
    }
    WriteAnswer(s, p, result);
    OneStepConfirms(s, t, p, t.puts[p]);
  }

  lemma WakeConfirms(s: State, p: PutId)
    requires ConfirmOk(s) && Possible(s, Wake(p))
    ensures ConfirmOk(Effect(s, Wake(p)))
  {
    hide ConfirmOk;
    var t := Effect(s, Wake(p));
    PutFacts(s, p);
    PendingFacts(s, p);
    if Observed(s.samples, s.puts[p]) {
      ObservedStays(s.samples, t.samples, s.puts[p], t.puts[p]);
    }
    OneStepConfirms(s, t, p, t.puts[p]);
  }

  lemma ConfirmKept(s: State, step: Step)
    requires FencesOk(s) && ConfirmOk(s)
    ensures ConfirmOk(Apply(s, step))
  {
    hide FencesOk, ConfirmOk, FenceEffect, WriteEffect, OwnEffect, FailAll, Invalidate, Settle;
    if Possible(s, step) {
      match step
      case Observe(sample) => ObserveConfirms(s, sample);
      case Commit(transform) => CommitConfirms(s, transform);
      case Retire(reason) => RetireConfirms(s, reason);
      case CheckHealth => HealthConfirms(s);
      case OwnStep(p, own) => OwnConfirms(s, p, own);
      case FenceStep(p, fence) => FenceConfirms(s, p, fence);
      case WriteStep(p, result) => WriteConfirms(s, p, result);
      case Wake(p) => WakeConfirms(s, p);
      case _ => SameConfirms(s, Effect(s, step));
    }
  }

  lemma SameConfirms(s: State, t: State)
    requires ConfirmOk(s) && t.puts == s.puts && t.writes == s.writes && t.confirms == s.confirms
    requires t.samples == s.samples && t.pending == s.pending
    ensures ConfirmOk(t)
  {
    forall p | p in t.puts
      ensures AnswerOk(t, p, t.puts[p])
    {
      SameLogs(s, t, p, s.puts[p]);
    }
  }

  /** Every step of every thread keeps the invariant. */
  lemma StepKeepsInv(s: State, step: Step)
    requires Inv(s)
    ensures Inv(Apply(s, step))
  {
    hide FencesOk, WritesOk, ConfirmOk, Possible, Effect;
    FencesKept(s, step);
    WritesKept(s, step);
    ConfirmKept(s, step);
  }

  lemma {:induction false} RunKeepsInv(confirms: bool, transform: Option<Linear>, steps: seq<Step>)
    ensures Inv(After(Fresh(confirms, transform), steps))
    decreases |steps|
  {
    hide FencesOk, WritesOk, ConfirmOk, Possible, Effect;
    if steps == [] {
      StartsOk(confirms, transform);
    } else {
      RunKeepsInv(confirms, transform, steps[..|steps| - 1]);
      StepKeepsInv(After(Fresh(confirms, transform), steps[..|steps| - 1]), steps[|steps| - 1]);
    }
  }

  lemma StartsOk(confirms: bool, transform: Option<Linear>)
    ensures Inv(Fresh(confirms, transform))
  {
  }

  // ---- promises ----

  /** Every value written is the inverse transform of its client's value under the transform in force at that instant. */
  lemma WritesUseTransformInForce(confirms: bool, transform: Option<Linear>, steps: seq<Step>, i: nat)
    requires i < |After(Fresh(confirms, transform), steps).writes|
    ensures var s := After(Fresh(confirms, transform), steps);
            && s.writes[i].put in s.puts
            && s.writes[i].raw == Inverse(s.writes[i].inForce, s.puts[s.writes[i].put].present)
            && Forward(s.writes[i].inForce, s.writes[i].raw) == s.puts[s.writes[i].put].present
  {
    RunKeepsInv(confirms, transform, steps);
    var s := After(Fresh(confirms, transform), steps);
    assert WriteOk(s, s.writes[i]);
    InverseThenForward(s.writes[i].inForce, s.puts[s.writes[i].put].present);
  }

  /** The recorded transform is the one the runtime held when the write was issued. */
  lemma WriteRecordsTransform(s: State, step: Step)
    ensures var t := Apply(s, step);
            t.writes == s.writes
            || (step.WriteStep? && t.writes == s.writes + [Write(step.p, s.puts[step.p].Raw(), s.transform, step.result.Acknowledged?)])
  {
    hide OwnEffect, OwnPossible, FenceEffect, WriteEffect, FailAll, Settle, Invalidate, Unlocked, At, Inverse, Possible;
  }

  lemma WrittenAtMostOnce(confirms: bool, transform: Option<Linear>, steps: seq<Step>, i: nat, j: nat)
    requires i < j < |After(Fresh(confirms, transform), steps).writes|
    ensures After(Fresh(confirms, transform), steps).writes[i].put != After(Fresh(confirms, transform), steps).writes[j].put
  {
    RunKeepsInv(confirms, transform, steps);
  }

  /** No write is issued once the deactivation that retired the runtime has returned. */
  lemma {:induction false} NoWriteAfterRetirement(confirms: bool, transform: Option<Linear>, before: seq<Step>, steps: seq<Step>)
    requires After(Fresh(confirms, transform), before).retired
    ensures var s := After(Fresh(confirms, transform), before);
            After(s, steps).writes == s.writes && After(s, steps).retired
    decreases |steps|
  {
    hide WritesOk, ConfirmOk;
    RunKeepsInv(confirms, transform, before);
    WritesBounded(After(Fresh(confirms, transform), before), steps);
  }

  /** Once `alive` is clear the only write still possible is that of the put holding the mutex. */
  lemma {:induction false} WritesBounded(s: State, steps: seq<Step>)
    requires FencesOk(s) && !s.alive
    ensures var t := After(s, steps);
            && FencesOk(t) && !t.alive && (s.retired ==> t.retired)
            && |t.writes| + (if t.owner.Some? then 1 else 0) <= |s.writes| + (if s.owner.Some? then 1 else 0)
            && s.writes <= t.writes
    decreases |steps|
  {
    if steps != [] {
      var m, step := After(s, steps[..|steps| - 1]), steps[|steps| - 1];
      WritesBounded(s, steps[..|steps| - 1]);
      FencesKept(m, step);
      ClearedStep(m, step);
    }
  }

  lemma ClearedStep(m: State, step: Step)
    requires FencesOk(m) && !m.alive
    ensures var t := Apply(m, step);
            && !t.alive && (m.retired ==> t.retired) && m.writes <= t.writes
            && |t.writes| + (if t.owner.Some? then 1 else 0) <= |m.writes| + (if m.owner.Some? then 1 else 0)
  {
    hide OwnEffect;
    if Possible(m, step) && step.WriteStep? {
      assert FenceOk(m, step.p, m.puts[step.p]);
    }
  }

  /**
   A second deactivate() returns at once when `alive` is already clear.  A write can still be issued after that
   return if and only if a put holds the mutex at that moment.
   */
  lemma EarlyReturnIsSafeIff(confirms: bool, transform: Option<Linear>, steps: seq<Step>)
    requires !After(Fresh(confirms, transform), steps).alive
    ensures var s := After(Fresh(confirms, transform), steps);
            (exists more: seq<Step> :: |After(s, more).writes| > |s.writes|) <==> s.owner.Some?
  {
    hide WritesOk, ConfirmOk;
    var s := After(Fresh(confirms, transform), steps);
    RunKeepsInv(confirms, transform, steps);
    if s.owner.Some? {
      var more := [WriteStep(s.owner.value, WriteResult.Acknowledged)];
      assert more[..0] == [];
      assert |After(s, more).writes| > |s.writes|;
    } else {
      forall more: seq<Step>
        ensures |After(s, more).writes| <= |s.writes|
      {
        WritesBounded(s, more);
      }
    }
  }

  lemma Snoc(s: State, steps: seq<Step>, step: Step)
    ensures After(s, steps + [step]) == Apply(After(s, steps), step)
  {
    assert (steps + [step])[..|steps|] == steps;
  }

  /** The mutex can indeed be held then: a run in which `alive` is cleared while a put is about to write. */
  lemma EarlyReturnBeforeWrite(value: Value) returns (steps: seq<Step>)
    ensures var s := After(Fresh(false, None), steps); !s.alive && s.owner.Some?
  {
    var s0 := Fresh(false, None);
    var s1 := Apply(s0, Activate);
    Snoc(s0, [], Activate);
    steps := [] + [Activate];
    var put := NewPut(value, true);
    var s2 := Apply(s1, OwnStep(1, Arrive(value)));
    Snoc(s0, steps, OwnStep(1, Arrive(value)));
    steps := steps + [OwnStep(1, Arrive(value))];
    assert s2 == s1.(puts := map[1 := put]);
    var s3 := Apply(s2, OwnStep(1, CheckCommitted));
    Snoc(s0, steps, OwnStep(1, CheckCommitted));
    steps := steps + [OwnStep(1, CheckCommitted)];
    assert s3 == s1.(puts := map[1 := put.(place := Admitting)]);
    var s4 := Apply(s3, OwnStep(1, ReadEpoch(true)));
    Snoc(s0, steps, OwnStep(1, ReadEpoch(true)));
    steps := steps + [OwnStep(1, ReadEpoch(true))];
    assert s4 == s1.(puts := map[1 := put.(place := Queued)]);
    var s5 := Apply(s4, OwnStep(1, Begin));
    Snoc(s0, steps, OwnStep(1, Begin));
    steps := steps + [OwnStep(1, Begin)];
    assert s5 == s1.(puts := map[1 := put.(place := Entered)]);
    var s6 := Apply(s5, OwnStep(1, Capture(true)));
    Snoc(s0, steps, OwnStep(1, Capture(true)));
    steps := steps + [OwnStep(1, Capture(true))];
    assert s6 == s1.(puts := map[1 := put.(place := Captured)]);
    var s7 := Apply(s6, FenceStep(1, Pass));
    Snoc(s0, steps, FenceStep(1, Pass));
    steps := steps + [FenceStep(1, Pass)];
    assert s7.owner == Some(1);
    Snoc(s0, steps, Deactivate);
    steps := steps + [Deactivate];
  }

  /** A success reported for a confirmed put was acknowledged, and seen back in the same reader epoch past the snapshot. */
  lemma ConfirmedMeansObserved(transform: Option<Linear>, steps: seq<Step>, p: PutId)
    requires var s := After(Fresh(true, transform), steps); p in s.puts && s.puts[p].answer.Replied?
    ensures var s := After(Fresh(true, transform), steps);
            && WasAcknowledged(s.writes, p)
            && exists k | s.puts[p].since <= k < |s.samples| ::
                 s.samples[k].epoch == s.puts[p].sourceEpoch && s.samples[k].id > s.puts[p].afterId
                 && ValuesEqual(s.puts[p].Raw(), s.samples[k].value)
  {
    RunKeepsInv(true, transform, steps);
    ConfirmsStays(true, transform, steps);
    var s := After(Fresh(true, transform), steps);
    assert AnswerOk(s, p, s.puts[p]);
    var k :| s.puts[p].since <= k < |s.samples| && Witness(s.puts[p], s.samples[k]);
    assert s.samples[k].epoch == s.puts[p].sourceEpoch;
  }

  lemma {:induction false} ConfirmsStays(confirms: bool, transform: Option<Linear>, steps: seq<Step>)
    ensures After(Fresh(confirms, transform), steps).confirms == confirms
    decreases |steps|
  {
    if steps != [] {
      var s, step := After(Fresh(confirms, transform), steps[..|steps| - 1]), steps[|steps| - 1];
      ConfirmsStays(confirms, transform, steps[..|steps| - 1]);
      StepKeepsRoute(s, step);
    }
  }

  lemma StepKeepsRoute(s: State, step: Step)
    ensures Apply(s, step).confirms == s.confirms
  {
    hide OwnEffect, FenceEffect, WriteEffect, FailAll, Settle, Invalidate;
  }

  /** When a dispatched put returns, its request has been answered or was finished elsewhere. */
  lemma DispatchAnswers(confirms: bool, transform: Option<Linear>, steps: seq<Step>, p: PutId)
    requires At(After(Fresh(confirms, transform), steps), p, Returned)
    ensures var put := After(Fresh(confirms, transform), steps).puts[p]; put.stopped && !put.answer.Unanswered?
  {
    RunKeepsInv(confirms, transform, steps);
    PutFacts(After(Fresh(confirms, transform), steps), p);
  }
}
