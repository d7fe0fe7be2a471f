/**
 The handle that owns a client's put or RPC request through queueing, cancellation and completion.  Its
 fields are atomics or guarded by its mutex; `stopped` and `aborted` can be read without the mutex.
 */
module QueuedExecution {
  import opened Basics

  type TaskId = nat

  /** What the client is told.  A peer that cancelled is told nothing. */
  datatype Answer = Reply | Error(message: string) | Withdrawn

  /** A call of finish(): a reply, an error, or the peer's cancellation. */
  datatype Call = SendReply | SendError(message: string) | Withdraw

  /** finish() sees a message only: an error with an empty one is delivered as a plain reply. */
  function AnswerOf(call: Call): Answer {
    match call
    case SendReply => Reply
    case SendError(message) => if message == "" then Reply else Error(message)
    case Withdraw => Withdrawn
  }

  /** Whether the call makes a late ticket cancel its task. */
  function Aborts(call: Call): bool {
    call.Withdraw? || (call.SendError? && call.message != "")
  }

  datatype Exec = Exec(stopped: bool, aborted: bool, hasOp: bool, wakeSet: bool, ticket: TaskId)

  const Created := Exec(false, false, true, false, 0)

  // ---- one request and everything that can happen to it ----

  /** The caller that won: it still has to call the wake function if there was one, then to answer. */
  datatype Winner = Winner(call: Call, notify: bool, notified: bool, answered: bool)

  /** The submitting thread: before the queue returned, with the id, ticket stored, aborted read, done. */
  datatype Submitter = Submitting | Submitted(id: TaskId) | Stored(id: TaskId) | Checked(id: TaskId, saw: bool) | Assigned(id: TaskId, saw: bool)

  /** The peer's cancel callback: not called, inside finish(), past it, ticket read, done. */
  datatype Peer = Quiet | Claiming(won: bool) | Past(won: bool) | Loaded(won: bool, ticket: TaskId) | Handled(won: bool, ticket: TaskId)

  /** The thread that registers the wake function: not yet, registered, done. */
  datatype Waker = NotWaiting | Registered(late: bool) | Waiting(late: bool)

  /** Who holds the handle's mutex halfway through finish(): the winning call has set `stopped` but not `aborted`. */
  datatype Holder = Nobody | Finishing(call: Call, byPeer: bool)

  datatype State = State(
    exec: Exec, holder: Holder, winners: seq<Winner>, submitter: Submitter, peer: Peer, waker: Waker,
    cancels: seq<TaskId>, wakes: nat, answers: seq<Answer>)

  datatype Step =
    | Finish(call: Call)          // reply(), error() or the queue's failure callback
    | PeerCancel                  // the peer's cancel callback enters finish()
    | Record                      // the winning call sets `aborted`, takes op and wake, unlocks
    | CallWake                    // the winner calls the wake function it took
    | GiveAnswer                  // the winner answers the client
    | PeerProceeds                // the peer callback leaves finish()
    | PeerLoads | PeerCancels     // it reads the ticket and calls cancel
    | SubmitReturns(id: TaskId)   // the queue returned an id, or 0
    | StoreTicket | ReadAborted | CancelOwn
    | RegisterWake | CallOwnWake

  const Begin := State(Created, Nobody, [], Submitting, Quiet, NotWaiting, [], 0, [])

  ghost predicate Possible(s: State, step: Step) {
    match step
    case Finish(call) => s.holder.Nobody? && !call.Withdraw?
    case PeerCancel => s.holder.Nobody? && s.peer.Quiet?
    case Record => s.holder.Finishing?
    case CallWake => s.winners != [] && s.winners[0].notify && !s.winners[0].notified
    case GiveAnswer => s.winners != [] && (s.winners[0].notify ==> s.winners[0].notified) && !s.winners[0].answered
    case PeerProceeds => s.peer.Claiming? && (s.peer.won ==> s.holder.Nobody? && s.winners != [] && s.winners[0].answered)
    case PeerLoads => s.peer.Past?
    case PeerCancels => s.peer.Loaded?
    case SubmitReturns(_) => s.submitter.Submitting?
    case StoreTicket => s.submitter.Submitted?
    case ReadAborted => s.submitter.Stored?
    case CancelOwn => s.submitter.Checked?
    case RegisterWake => s.holder.Nobody? && s.waker.NotWaiting?
    case CallOwnWake => s.waker.Registered?
  }

  ghost function Enter(s: State, call: Call, byPeer: bool): State {
    var t := if s.exec.stopped then s
             else s.(exec := s.exec.(stopped := true), holder := Finishing(call, byPeer));
    if byPeer then t.(peer := Claiming(!s.exec.stopped)) else t
  }

  ghost function Effect(s: State, step: Step): State
    requires Possible(s, step)
  {
    match step
    case Finish(call) => Enter(s, call, false)
    case PeerCancel => Enter(s, Withdraw, true)
    case Record =>
      var call := s.holder.call;
      s.(exec := s.exec.(aborted := Aborts(call), hasOp := false), holder := Nobody,
         winners := s.winners + [Winner(call, s.exec.wakeSet, false, false)])
    case CallWake => s.(winners := s.winners[0 := s.winners[0].(notified := true)], wakes := s.wakes + 1)
    case GiveAnswer => s.(winners := s.winners[0 := s.winners[0].(answered := true)],
                          answers := s.answers + [AnswerOf(s.winners[0].call)])
    case PeerProceeds => s.(peer := Past(s.peer.won))
    case PeerLoads => s.(peer := Loaded(s.peer.won, s.exec.ticket))
    case PeerCancels => s.(peer := Handled(s.peer.won, s.peer.ticket), cancels := s.cancels + [s.peer.ticket])
    case SubmitReturns(id) => s.(submitter := Submitted(id))
    case StoreTicket => s.(submitter := Stored(s.submitter.id), exec := s.exec.(ticket := s.submitter.id))
    case ReadAborted => s.(submitter := Checked(s.submitter.id, s.exec.aborted))
    case CancelOwn => s.(submitter := Assigned(s.submitter.id, s.submitter.saw),
                         cancels := if s.submitter.saw then s.cancels + [s.submitter.id] else s.cancels)
    case RegisterWake => s.(exec := s.exec.(wakeSet := true), waker := Registered(s.exec.stopped))
    case CallOwnWake => s.(waker := Waiting(s.waker.late), wakes := if s.waker.late then s.wakes + 1 else s.wakes)
  }

  ghost function Apply(s: State, step: Step): State {
    if Possible(s, step) then Effect(s, step) else s
  }

  ghost function After(steps: seq<Step>): State {
    if steps == [] then Begin else Apply(After(steps[..|steps| - 1]), steps[|steps| - 1])
  }

  // ---- invariant ----

  /** The first finish() wins and only that one answers. */
  ghost predicate AnswersOk(s: State) {
    && |s.winners| <= 1
    && (s.exec.stopped <==> s.holder.Finishing? || s.winners != [])
    && (s.holder.Finishing? ==> s.winners == [] && s.exec.hasOp)
    && (s.winners == [] ==> s.answers == [] && s.exec.hasOp && !s.exec.aborted)
    && (s.winners != [] ==>
          var w := s.winners[0];
          && !s.exec.hasOp
          && s.exec.aborted == !AnswerOf(w.call).Reply?
          && s.answers == if w.answered then [AnswerOf(w.call)] else [])
  }

  /** The wake function is called once, by the winner that took it or by the thread that came too late. */
  ghost predicate WakesOk(s: State) {
    && (s.exec.wakeSet <==> !s.waker.NotWaiting?)
    && (s.winners == [] ==> s.wakes == 0 && (s.holder.Nobody? ==> !s.waker.NotWaiting? ==> !s.waker.late))
    && (s.holder.Finishing? && !s.waker.NotWaiting? ==> !s.waker.late)
    && (s.winners != [] ==>
          var w := s.winners[0];
          && (w.notified ==> w.notify)
          && (!s.waker.NotWaiting? ==> w.notify == !s.waker.late)
          && (s.waker.NotWaiting? ==> !w.notify)
          && s.wakes == (if w.notified then 1 else 0) + (if s.waker.Waiting? && s.waker.late then 1 else 0))
  }

  /** If the peer won, whichever of the two threads came second knows the real id. */
  ghost predicate CancelsOk(s: State) {
    && (s.submitter.Stored? || s.submitter.Checked? || s.submitter.Assigned? ==> s.exec.ticket == s.submitter.id)
    && (s.submitter.Assigned? && s.submitter.saw ==> s.submitter.id in s.cancels)
    && (s.peer.Handled? ==> s.peer.ticket in s.cancels)
    && (!s.peer.Quiet? && s.peer.won ==>
          && (s.peer.Claiming? && s.holder.Finishing? ==> s.holder.byPeer && s.holder.call == Withdraw)
          && (s.holder.Nobody? ==> s.winners != [] && s.winners[0].call == Withdraw && s.exec.aborted)
          && (!s.peer.Claiming? ==> s.holder.Nobody?))
    && (s.holder.Finishing? && s.holder.byPeer ==> s.peer.Claiming? && s.peer.won)
    && (s.holder.Finishing? ==> s.holder.call.Withdraw? == s.holder.byPeer)
    && ((s.peer.Loaded? || s.peer.Handled?) && s.peer.won
        && (s.submitter.Checked? || s.submitter.Assigned?) && !s.submitter.saw
        ==> s.peer.ticket == s.submitter.id)
    && (s.winners != [] && s.winners[0].call.Withdraw? ==> !s.peer.Quiet? && s.peer.won)
  }

  ghost predicate Inv(s: State) {
    AnswersOk(s) && WakesOk(s) && CancelsOk(s)
  }

  lemma StepKeepsAnswers(s: State, step: Step)
    requires AnswersOk(s)
    ensures AnswersOk(Apply(s, step))
  {
  }

  lemma StepKeepsWakes(s: State, step: Step)
    requires AnswersOk(s) && WakesOk(s)
    ensures WakesOk(Apply(s, step))
  {
  }

  lemma StepKeepsCancels(s: State, step: Step)
    requires AnswersOk(s) && CancelsOk(s)
    ensures CancelsOk(Apply(s, step))
  {
  }

  lemma StepKeepsInv(s: State, step: Step)
    requires Inv(s)
    ensures Inv(Apply(s, step))
  {
    StepKeepsAnswers(s, step);
    StepKeepsWakes(s, step);
    StepKeepsCancels(s, step);
  }

  lemma {:induction false} RunKeepsInv(steps: seq<Step>)
    ensures Inv(After(steps))
    decreases |steps|
  {
    if steps != [] {
      var s := After(steps[..|steps| - 1]);
      RunKeepsInv(steps[..|steps| - 1]);
      StepKeepsInv(s, steps[|steps| - 1]);
    }
  }

  /** Under every interleaving the client gets at most one answer, and exactly one once the winning call is through. */
  lemma OneAnswer(steps: seq<Step>)
    ensures var s := After(steps);
            && |s.answers| <= 1
            && (s.winners != [] && s.winners[0].answered ==> s.answers == [AnswerOf(s.winners[0].call)])
            && (s.exec.stopped && s.holder.Nobody? ==> s.winners != [])
  {
    RunKeepsInv(steps);
  }

  // ---- told from the steps ----

  /** The first call of finish(), by whomever. */
  ghost function FirstCall(steps: seq<Step>): Option<Call> {
    if steps == [] then None
    else
      var before, step := FirstCall(steps[..|steps| - 1]), steps[|steps| - 1];
      if before.Some? || !Possible(After(steps[..|steps| - 1]), step) then before
      else
        match step
        case Finish(call) => Some(call)
        case PeerCancel => Some(Withdraw)
        case _ => None
  }

  ghost predicate Won(s: State, first: Option<Call>) {
    && (s.exec.stopped <==> first.Some?)
    && (s.holder.Finishing? ==> first == Some(s.holder.call))
    && (s.winners != [] ==> first == Some(s.winners[0].call))
  }

  lemma StepWins(s: State, step: Step, first: Option<Call>)
    requires AnswersOk(s) && Won(s, first)
    ensures Won(Apply(s, step),
                if first.Some? || !Possible(s, step) then first
                else match step case Finish(call) => Some(call) case PeerCancel => Some(Withdraw) case _ => None)
  {
  }

  /** In every run the first call wins: it alone is recorded, and once it is through the client has its answer. */
  lemma {:induction false} FirstWins(steps: seq<Step>)
    ensures Won(After(steps), FirstCall(steps))
    decreases |steps|
  {
    if steps != [] {
      FirstWins(steps[..|steps| - 1]);
      RunKeepsInv(steps[..|steps| - 1]);
      hide WakesOk, CancelsOk, Won, Apply;
      StepWins(After(steps[..|steps| - 1]), steps[|steps| - 1], FirstCall(steps[..|steps| - 1]));
    }
  }

  /** What the client is told is what the first call said; a withdrawn request is told nothing. */
  lemma AnswerIsFirstCall(steps: seq<Step>, answer: Answer)
    requires answer in After(steps).answers
    ensures FirstCall(steps).Some?
    ensures match FirstCall(steps).value
            case SendReply => answer == Reply
            case SendError(message) => if message == "" then answer == Reply else answer == Error(message)
            case Withdraw => answer == Withdrawn
  {
    FirstWins(steps);
    RunKeepsInv(steps);
  }

  /** Who asked the queue to cancel. */
  ghost predicate Asked(s: State) {
    && (forall id | id in s.cancels ::
          (s.peer.Handled? && id == s.peer.ticket) || (s.submitter.Assigned? && s.submitter.saw && id == s.submitter.id))
    && ((s.submitter.Checked? || s.submitter.Assigned?) && s.submitter.saw ==> s.winners != [] && Aborts(s.winners[0].call))
    && (s.winners == [] ==> !s.exec.aborted) && (s.winners != [] ==> s.exec.aborted == Aborts(s.winners[0].call))
  }

  lemma StepAsks(s: State, step: Step)
    requires AnswersOk(s) && Asked(s)
    ensures Asked(Apply(s, step))
  {
  }

  lemma {:induction false} RunAsks(steps: seq<Step>)
    ensures Asked(After(steps))
    decreases |steps|
  {
    if steps != [] {
      RunAsks(steps[..|steps| - 1]);
      RunKeepsInv(steps[..|steps| - 1]);
      hide WakesOk, CancelsOk, Asked, Apply;
      StepAsks(After(steps[..|steps| - 1]), steps[|steps| - 1]);
    }
  }

  /** Nothing is cancelled but at the peer's request, or because the first call was no success when the id arrived. */
  lemma OnlyFailedAreCancelled(steps: seq<Step>, id: TaskId)
    requires id in After(steps).cancels
    ensures var s := After(steps);
            || (s.peer.Handled? && id == s.peer.ticket)
            || (s.submitter.Assigned? && id == s.submitter.id && FirstCall(steps).Some?
                && FirstCall(steps).value != SendReply && FirstCall(steps).value != SendError(""))
  {
    RunAsks(steps);
    FirstWins(steps);
  }

  /** A put its peer cancelled reaches the queue's cancel with its real id, however late the id arrives. */
  lemma CancelReachesQueue(steps: seq<Step>)
    requires var s := After(steps); s.peer.Handled? && s.peer.won && s.submitter.Assigned?
    ensures After(steps).submitter.id in After(steps).cancels
  {
    RunKeepsInv(steps);
  }

  /** A registered wake function is called exactly once, when registration and the winning call are both through. */
  lemma WokenOnce(steps: seq<Step>)
    requires var s := After(steps);
             s.waker.Waiting? && s.winners != [] && (s.winners[0].notify ==> s.winners[0].notified)
    ensures After(steps).wakes == 1
  {
    RunKeepsInv(steps);
  }

  /** An error is reported as an error exactly when its message is not empty, and as success otherwise. */
  lemma ErrorNeedsMessage(steps: seq<Step>, message: string)
    requires var s := After(steps); s.winners != [] && s.winners[0].call == SendError(message) && s.winners[0].answered
    ensures After(steps).answers == [Error(message)] <==> message != ""
    ensures After(steps).answers == [Reply] <==> message == ""
  {
    RunKeepsInv(steps);
  }

  lemma Snoc(steps: seq<Step>, step: Step)
    ensures After(steps + [step]) == Apply(After(steps), step)
  {
    assert (steps + [step])[..|steps|] == steps;
  }

  /** A run in which the handle is told of an error with an empty message, and the client of success. */
  lemma EmptyErrorIsSuccess() returns (steps: seq<Step>)
    ensures steps == [Finish(SendError("")), Record, GiveAnswer]
    ensures After(steps).winners == [Winner(SendError(""), false, false, true)] && After(steps).answers == [Reply]
  {
    steps := [];
    Snoc(steps, Finish(SendError("")));
    steps := steps + [Finish(SendError(""))];
    Snoc(steps, Record);
    steps := steps + [Record];
    Snoc(steps, GiveAnswer);
    steps := steps + [GiveAnswer];
  }

  // ---- the handle ----

  /** The handle's own fields, one method per atomic access or mutex-held region; `model` is the state they belong to. */
  class QueuedExec {
    var stopped: bool
    var aborted: bool
    var hasOp: bool
    var wakeSet: bool
    var ticket: TaskId
    ghost var model: State

    ghost predicate Valid()
      reads this
    {
      Inv(model) && model.exec == Exec(stopped, aborted, hasOp, wakeSet, ticket)
    }

    constructor ()
      ensures Valid() && model == Begin
    {
      stopped, aborted, hasOp, wakeSet, ticket := false, false, true, false, 0;
      model := Begin;
    }

    /** The start of finish() under the mutex: the first caller wins. */
    method EnterFinish(call: Call) returns (won: bool)
      requires Valid() && Possible(model, Finish(call))
      modifies this
      ensures Valid() && model == Effect(old(model), Finish(call)) && won == model.holder.Finishing?
    {
      StepKeepsInv(model, Finish(call));
      won := !stopped;
      stopped := true;
      model := Effect(model, Finish(call));
    }

    /** The same from the peer's cancel callback. */
    method EnterCancel() returns (won: bool)
      requires Valid() && Possible(model, PeerCancel)
      modifies this
      ensures Valid() && model == Effect(old(model), PeerCancel) && won == model.peer.won
    {
      StepKeepsInv(model, PeerCancel);
      won := !stopped;
      stopped := true;
      model := Effect(model, PeerCancel);
    }

    /** The rest of the winner's mutex-held region: it takes the operation and the wake function. */
    method TakeOver(call: Call) returns (notify: bool, op: bool)
      requires Valid() && Possible(model, Record) && call == model.holder.call
      modifies this
      ensures Valid() && model == Effect(old(model), Record) && notify == model.winners[0].notify && op
    {
      StepKeepsInv(model, Record);
      aborted := Aborts(call);
      op, hasOp := hasOp, false;
      notify := wakeSet;
      model := Effect(model, Record);
    }

    /** The mutex-held region of wake(): says whether the function must be called at once. */
    method RegisterWake() returns (late: bool)
      requires Valid() && Possible(model, Step.RegisterWake)
      modifies this
      ensures Valid() && model == Effect(old(model), Step.RegisterWake) && late == model.waker.late
    {
      StepKeepsInv(model, Step.RegisterWake);
      wakeSet := true;
      late := stopped;
      model := Effect(model, Step.RegisterWake);
    }

    /** ticket(): the id is stored, and only then is the abort flag read. */
    method Ticket(id: TaskId) returns (cancel: bool)
      requires Valid() && Possible(model, StoreTicket) && id == model.submitter.id
      modifies this
      ensures Valid() && model == Effect(Effect(old(model), StoreTicket), ReadAborted) && cancel == model.submitter.saw
    {
      StepKeepsInv(model, StoreTicket);
      ticket := id;
      model := Effect(model, StoreTicket);
      StepKeepsInv(model, ReadAborted);
      cancel := aborted;
      model := Effect(model, ReadAborted);
    }

    /** The cancel callback reads the ticket once its finish() is through. */
    method LoadTicket() returns (id: TaskId)
      requires Valid() && Possible(model, PeerLoads)
      modifies this
      ensures Valid() && model == Effect(old(model), PeerLoads) && id == model.peer.ticket
    {
      StepKeepsInv(model, PeerLoads);
      id := ticket;
      model := Effect(model, PeerLoads);
    }
  }
}
