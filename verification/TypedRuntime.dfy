/**
 The typed PV runtime's own fields and the mutex-held regions of its write path.  `model` is the state of
 PutDispatch the fields belong to; every method takes it through exactly one of its steps.
 */
module TypedRuntimes {
  import opened Basics
  import opened PutDispatch

  class TypedRuntime {
    const confirms: bool
    var transform: Option<Linear>
    var commandEpoch: nat
    var alive: bool
    var committed: bool
    var pendingPuts: map<PutId, Pending>
    ghost var model: State

    ghost predicate Valid()
      reads this
    {
      && model.confirms == confirms && model.transform == transform && model.commandEpoch == commandEpoch
      && model.alive == alive && model.committed == committed && model.pending == pendingPuts
    }

    constructor (confirms: bool, transform: Option<Linear>)
      ensures Valid() && model == Fresh(confirms, transform)
    {
      this.confirms := confirms;
      this.transform := transform;
      commandEpoch, alive, committed, pendingPuts := 0, true, false, map[];
      model := Fresh(confirms, transform);
    }

    method Activate()
      requires Valid() && Possible(model, Step.Activate)
      modifies this
      ensures Valid() && model == Effect(old(model), Step.Activate)
    {
      committed := true;
      model := model.(committed := true);
    }

    method FailPendingLocked(reason: string)
      modifies this`pendingPuts
      ensures pendingPuts == FailAll(old(pendingPuts), reason)
    {
      var rest := pendingPuts.Keys;
      while rest != {}
        invariant rest <= old(pendingPuts).Keys == pendingPuts.Keys
        invariant forall p | p in pendingPuts ::
                    pendingPuts[p] == if p in rest then old(pendingPuts)[p]
                                      else old(pendingPuts)[p].(done := true, error := Some(reason))
        decreases |rest|
      {
        var p :| p in rest;
        pendingPuts := pendingPuts[p := pendingPuts[p].(done := true, error := Some(reason))];
        rest := rest - {p};
      }
    }

    /** A sample settles the puts it confirms and fails those of another reader epoch. */
    method SettlePending(sample: Sample)
      modifies this`pendingPuts
      ensures pendingPuts == Settle(old(pendingPuts), sample)
    {
      var rest := pendingPuts.Keys;
      while rest != {}
        invariant rest <= old(pendingPuts).Keys == pendingPuts.Keys
        invariant forall p | p in pendingPuts ::
                    pendingPuts[p] == if p in rest then old(pendingPuts)[p] else Settle1(old(pendingPuts)[p], sample)
        decreases |rest|
      {
        var p :| p in rest;
        var e := pendingPuts[p];
        if !e.done && e.sourceEpoch != sample.epoch {
          pendingPuts := pendingPuts[p := e.(done := true, error := Some("confirmation source epoch changed; not retried"))];
        } else if !e.done && sample.id > e.afterId && ValuesEqual(e.expected, sample.value) {
          pendingPuts := pendingPuts[p := e.(done := true)];
        }
        rest := rest - {p};
      }
    }

    /** Fails the puts that wait in another reader epoch. */
    method InvalidatePending(readerEpoch: nat)
      modifies this`pendingPuts
      ensures pendingPuts == Invalidate(old(pendingPuts), readerEpoch)
    {
      var rest := pendingPuts.Keys;
      while rest != {}
        invariant rest <= old(pendingPuts).Keys == pendingPuts.Keys
        invariant forall p | p in pendingPuts ::
                    pendingPuts[p] == if p in rest then old(pendingPuts)[p] else Invalidate1(old(pendingPuts)[p], readerEpoch)
        decreases |rest|
      {
        var p :| p in rest;
        var e := pendingPuts[p];
        if !e.done && e.sourceEpoch != readerEpoch {
          pendingPuts := pendingPuts[p := e.(done := true, error := Some("confirmation source epoch changed; not retried"))];
        }
        rest := rest - {p};
      }
    }

    /** Update::commit: a changed transform starts a new command epoch and fails what is waiting. */
    method Commit(next: Option<Linear>)
      requires Valid() && Possible(model, Step.Commit(next))
      modifies this
      ensures Valid() && model == Effect(old(model), Step.Commit(next))
    {
      var same := transform.Some? == next.Some?
        && (transform.None? || (transform.value.scale == next.value.scale && transform.value.offset == next.value.offset));
      if !same {
        commandEpoch := commandEpoch + 1;
        FailPendingLocked("write transform changed during reload");
      }
      transform := next;
      model := Effect(model, Step.Commit(next));
    }

    /** The first half of deactivate(), before the mutex: says whether the caller has to retire the runtime. */
    method ExchangeAlive() returns (first: bool)
      requires Valid()
      modifies this
      ensures Valid() && model == Effect(old(model), Step.Deactivate) && first == old(alive)
    {
      first := alive;
      alive := false;
      model := model.(alive := false);
    }

    /** The second half of deactivate(), under the mutex. */
    method Retire(reason: string)
      requires Valid() && Possible(model, Step.Retire(reason))
      modifies this
      ensures Valid() && model == Effect(old(model), Step.Retire(reason))
    {
      commandEpoch := commandEpoch + 1;
      FailPendingLocked(reason);
      model := Effect(model, Step.Retire(reason));
    }

    /** handleRawUpdate on the confirmation source; `readerEpoch` is what the reader reports. */
    method HandleRawUpdate(sample: Sample, readerEpoch: nat) returns (taken: bool)
      requires Valid() && Possible(model, Observe(sample)) && readerEpoch == model.readerEpoch
      modifies this
      ensures Valid() && model == Effect(old(model), Observe(sample))
      ensures taken == (alive && sample.epoch == readerEpoch)
    {
      if !alive || readerEpoch != sample.epoch {
        return false;
      }
      SettlePending(sample);
      model := Effect(model, Observe(sample));
      taken := true;
    }

    /** The epoch check of sourceHealth. */
    method CheckSourceEpoch(readerEpoch: nat)
      requires Valid() && Possible(model, CheckHealth) && readerEpoch == model.readerEpoch
      modifies this
      ensures Valid() && model == Effect(old(model), CheckHealth)
    {
      if alive && committed {
        InvalidatePending(readerEpoch);
      }
      model := Effect(model, CheckHealth);
    }

    /** The checks of dispatchPut under the mutex, up to the write. */
    method Fence(p: PutId, put: Put, fence: Fence, readerEpoch: nat) returns (passed: bool)
      requires Valid() && Possible(model, FenceStep(p, fence))
      requires put == model.puts[p] && readerEpoch == model.readerEpoch
      modifies this
      ensures Valid() && model == Effect(old(model), FenceStep(p, fence))
      ensures passed <==> model.owner == Some(p)
    {
      passed := false;
      if alive && commandEpoch == put.epoch {
        if !put.stopped && fence.Pass? && (!confirms || put.sourceEpoch == readerEpoch) {
          if confirms {
            pendingPuts := pendingPuts[p := Pending(put.Raw(), put.afterId, put.sourceEpoch, false, None)];
          }
          passed := true;
        }
      }
      model := FenceEffect(model, p, fence);
    }

    /** The end of the fenced region: a write that threw or was not acknowledged is no longer waited for. */
    method FinishWrite(p: PutId, result: WriteResult)
      requires Valid() && Possible(model, WriteStep(p, result))
      modifies this
      ensures Valid() && model == Effect(old(model), WriteStep(p, result))
    {
      if !result.Acknowledged? {
        pendingPuts := pendingPuts - {p};
      }
      model := WriteEffect(model, p, result);
    }

    /** The waiter wakes, takes its entry out and reads its verdict. */
    method TakeVerdict(p: PutId) returns (error: bool, confirmed: bool)
      requires Valid() && Possible(model, Wake(p)) && p in pendingPuts
      modifies this
      ensures Valid() && model == Effect(old(model), Wake(p))
      ensures model.puts[p].place == Deciding(error, confirmed)
    {
      error, confirmed := pendingPuts[p].error.Some?, pendingPuts[p].done;
      pendingPuts := pendingPuts - {p};
      model := Effect(model, Wake(p));
    }
  }
}
