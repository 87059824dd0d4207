/** The barrier of the power HAL and its two uses: callers of createPmQosHandle wait for the
    worker's answer, and start-up waits until the worker has its looper. */
module Handshake {
  import opened Options

  // ---------- one barrier, one waiter, one opener ----------

  /** Who holds the barrier's mutex. */
  datatype Guard = Free | ByWaiter | ByOpener

  /** Where the waiting thread is in Barrier::wait. */
  datatype Wait = Outside | Entering | Testing | Blocked | Woken | Passing | Through

  /** Where the opening thread is in Barrier::open. */
  datatype Post = Before | Arriving | Inside | Leaving | Gone

  datatype Barrier = Barrier(open: bool, lock: Guard, waiter: Wait, opener: Post)

  const SHUT := Barrier(false, Free, Outside, Before)

  predicate CanWait(b: Barrier) {
    match b.waiter
    case Outside => true
    case Through => true
    case Entering => b.lock.Free?
    case Woken => b.lock.Free?
    case Blocked => true  // a spurious wake-up
    case _ => true
  }

  /** One step of the waiter.  cv.wait drops the lock and blocks in one step. */
  function WaitStep(b: Barrier): Barrier {
    match b.waiter
    case Outside => b.(waiter := Entering)
    case Through => b.(waiter := Entering)
    case Entering => b.(lock := ByWaiter, waiter := Testing)
    case Testing => if b.open then b.(waiter := Passing) else b.(lock := Free, waiter := Blocked)
    case Blocked => b.(waiter := Woken)
    case Woken => b.(lock := ByWaiter, waiter := Testing)
    case Passing => b.(lock := Free, waiter := Through)
  }

  predicate CanOpen(b: Barrier) {
    match b.opener
    case Arriving => b.lock.Free?
    case Gone => false
    case _ => true
  }

  /** One step of the opener; the broadcast wakes a blocked waiter. */
  function OpenStep(b: Barrier): Barrier {
    match b.opener
    case Before => b.(opener := Arriving)
    case Arriving => b.(lock := ByOpener, opener := Inside)
    case Inside => b.(open := true, waiter := if b.waiter.Blocked? then Woken else b.waiter, opener := Leaving)
    case Leaving => b.(lock := Free, opener := Gone)
    case Gone => b
  }

  /** The lock excludes, the state is open once the opener stored it, nobody stays blocked on an
      open barrier, and who got through did so after the opener let go of the barrier. */
  predicate BarrierOk(b: Barrier) {
    && (b.lock.ByWaiter? <==> b.waiter.Testing? || b.waiter.Passing?)
    && (b.lock.ByOpener? <==> b.opener.Inside? || b.opener.Leaving?)
    && (b.open <==> b.opener.Leaving? || b.opener.Gone?)
    && (b.waiter.Blocked? ==> !b.open)
    && (b.waiter.Passing? || b.waiter.Through? ==> b.opener.Gone?)
  }

  lemma StepsKeepBarrier(b: Barrier)
    requires BarrierOk(b)
    ensures CanWait(b) ==> BarrierOk(WaitStep(b))
    ensures CanOpen(b) ==> BarrierOk(OpenStep(b))
  {
  }

  /** How many steps a waiter at an open barrier still needs. */
  function StepsToPass(w: Wait): nat {
    match w case Through => 0 case Passing => 1 case Testing => 2 case Outside => 4 case _ => 3
  }

  /** No lost wake-up: once the opener is gone, the waiter is not blocked, can always move, and
      every move brings it closer to passing. */
  lemma OpenBarrierLetsPass(b: Barrier)
    requires BarrierOk(b) && b.opener.Gone? && !b.waiter.Through?
    ensures !b.waiter.Blocked? && CanWait(b)
    ensures StepsToPass(WaitStep(b).waiter) < StepsToPass(b.waiter)
  {
  }

  // ---------- the whole handshake ----------

  /** A call of createPmQosHandle: its stack variables and what it returned. */
  datatype Call = Call(done: Barrier, ret: Option<int>, returned: Option<int>)

  datatype Worker = Booting | Dead | Announcing | Idle | Serving(call: nat) | Answering(call: nat)

  /** `waits` counts the start-up waits that have passed; two are made before any call can be.
      `answers` is history: what the worker stored for each call. */
  datatype State = State(looper: bool, ready: Barrier, waits: nat, calls: map<nat, Call>, queue: set<nat>,
                         worker: Worker, answers: map<nat, int>)

  const START := State(false, SHUT, 0, map[], {}, Booting, map[])

  datatype Step =
    | Prepare(ok: bool)        // the worker creates its looper
    | Announce                 // the worker opens the ready barrier, step by step
    | StartUp                  // the main thread waits for it, twice
    | CallBegin(c: nat)        // a caller queues its event
    | CallWait(c: nat)         // and waits
    | CallReturn(c: nat)
    | Fetch(c: nat)            // the worker takes the event
    | Store(fd: int)           // stores the result through outFd
    | Answer                   // and opens the caller's barrier, step by step

  predicate Enabled(s: State, step: Step) {
    match step
    case Prepare(_) => s.worker.Booting?
    case Announce => s.worker.Announcing? && CanOpen(s.ready)
    case StartUp => s.waits < 2 && CanWait(s.ready)
    case CallBegin(c) => s.waits == 2 && c !in s.calls
    case CallWait(c) => c in s.calls && CanWait(s.calls[c].done) && !s.calls[c].done.waiter.Through?
    case CallReturn(c) => c in s.calls && s.calls[c].done.waiter.Through? && s.calls[c].returned.None?
    case Fetch(c) => s.worker.Idle? && c in s.queue
    case Store(_) => s.worker.Serving? && s.worker.call in s.calls
    case Answer => s.worker.Answering? && s.worker.call in s.calls && CanOpen(s.calls[s.worker.call].done)
  }

  function Apply(s: State, step: Step): State
    requires Enabled(s, step)
  {
    match step
    case Prepare(ok) => if ok then s.(looper := true, worker := Announcing) else s.(worker := Dead)
    case Announce =>
      var b := OpenStep(s.ready);
      s.(ready := b, worker := if b.opener.Gone? then Idle else Announcing)
    case StartUp =>
      var b := WaitStep(s.ready);
      s.(ready := b, waits := s.waits + if b.waiter.Through? then 1 else 0)
    case CallBegin(c) => s.(calls := s.calls[c := Call(SHUT, None, None)], queue := s.queue + {c})
    case CallWait(c) => s.(calls := s.calls[c := s.calls[c].(done := WaitStep(s.calls[c].done))])
    case CallReturn(c) => s.(calls := s.calls[c := s.calls[c].(returned := s.calls[c].ret)])
    case Fetch(c) => s.(queue := s.queue - {c}, worker := Serving(c))
    case Store(fd) =>
      var c := s.worker.call;
      s.(calls := s.calls[c := s.calls[c].(ret := Some(fd))], answers := s.answers[c := fd], worker := Answering(c))
    case Answer =>
      var c := s.worker.call;
      var b := OpenStep(s.calls[c].done);
      s.(calls := s.calls[c := s.calls[c].(done := b)], worker := if b.opener.Gone? then Idle else s.worker)
  }

  function Run(s: State, steps: seq<Step>): Option<State> {
    if steps == [] then Some(s)
    else
      var before := Run(s, steps[..|steps| - 1]);
      if before.Some? && Enabled(before.value, steps[|steps| - 1])
      then Some(Apply(before.value, steps[|steps| - 1]))
      else None
  }

  /** A call is queued, being served, being answered, or answered; only in the last two is its
      result stored, and its barrier is opened only then. */
  ghost predicate CallOk(s: State, c: nat)
    requires c in s.calls
  {
    var k := s.calls[c];
    && BarrierOk(k.done)
    && (if c in s.queue || s.worker == Serving(c) then k.done.opener.Before? && k.ret.None? && c !in s.answers
        else c in s.answers && k.ret == Some(s.answers[c]) && (s.worker == Answering(c) || k.done.opener.Gone?))
    && (k.returned.Some? ==> k.done.waiter.Through? && k.returned == k.ret)
    && (s.worker == Answering(c) ==> !k.done.opener.Gone?)
    && !(c in s.queue && s.worker.Serving? && s.worker.call == c)
    && !(c in s.queue && s.worker.Answering? && s.worker.call == c)
  }

  ghost predicate Inv(s: State) {
    && BarrierOk(s.ready)
    && (!s.ready.opener.Before? ==> s.looper) && (s.worker.Announcing? ==> s.looper && !s.ready.opener.Gone?)
    && (s.worker.Booting? || s.worker.Dead? ==> s.ready.opener.Before?)
    && (s.waits > 0 ==> s.ready.opener.Gone?)
    && (s.calls != map[] ==> s.looper && s.waits == 2)
    && s.queue <= s.calls.Keys && s.answers.Keys <= s.calls.Keys
    && (s.worker.Serving? || s.worker.Answering? ==> s.worker.call in s.calls && s.ready.opener.Gone?)
    && (s.worker.Idle? ==> s.ready.opener.Gone?)
    && forall c :: c in s.calls ==> CallOk(s, c)
  }

  lemma CallKeeps(s: State, step: Step, c: nat)
    requires Inv(s) && Enabled(s, step) && c in Apply(s, step).calls
    ensures CallOk(Apply(s, step), c)
  {
    if c in s.calls {
      assert CallOk(s, c);
      StepsKeepBarrier(s.calls[c].done);
    }
  }

  lemma StepKeepsInv(s: State, step: Step)
    requires Inv(s) && Enabled(s, step)
    ensures Inv(Apply(s, step))
  {
    StepsKeepBarrier(s.ready);
    var s' := Apply(s, step);
    forall c | c in s'.calls ensures CallOk(s', c) { CallKeeps(s, step, c); }
    if s.worker.Answering? { assert CallOk(s, s.worker.call); }
  }

  lemma {:induction false} RunKeepsInv(steps: seq<Step>)
    requires Run(START, steps).Some?
    ensures Inv(Run(START, steps).value)
  {
    if steps != [] {
      RunKeepsInv(steps[..|steps| - 1]);
      StepKeepsInv(Run(START, steps[..|steps| - 1]).value, steps[|steps| - 1]);
    }
  }

  /** With any number of concurrent callers, a call that has returned got the worker's own
      answer to it, and the worker has left its barrier for good, so the caller's stack frame
      may go. */
  lemma CallsGetTheirAnswer(steps: seq<Step>, c: nat)
    requires Run(START, steps).Some?
    requires var s := Run(START, steps).value; c in s.calls && s.calls[c].returned.Some?
    ensures var s := Run(START, steps).value;
            && c in s.answers && s.calls[c].returned == Some(s.answers[c])
            && c !in s.queue && s.worker != Serving(c) && s.worker != Answering(c) && s.calls[c].done.opener.Gone?
  {
    RunKeepsInv(steps);
    assert CallOk(Run(START, steps).value, c);
  }

  /** No wake-up is lost: a call whose answer is complete is not blocked and can move on. */
  lemma AnsweredCallsMoveOn(steps: seq<Step>, c: nat)
    requires Run(START, steps).Some?
    requires var s := Run(START, steps).value;
             c in s.calls && c in s.answers && s.worker != Answering(c) && s.calls[c].returned.None?
    ensures var s := Run(START, steps).value;
            && !s.calls[c].done.waiter.Blocked?
            && (Enabled(s, CallWait(c)) || Enabled(s, CallReturn(c)))
            && (Enabled(s, CallWait(c)) ==>
                  StepsToPass(Apply(s, CallWait(c)).calls[c].done.waiter) < StepsToPass(s.calls[c].done.waiter))
  {
    RunKeepsInv(steps);
    var s := Run(START, steps).value;
    assert CallOk(s, c);
    if !s.calls[c].done.waiter.Through? { OpenBarrierLetsPass(s.calls[c].done); }
  }

  /** The looper is set before any event is sent; the ready barrier is open by then and stays
      open, so the second start-up wait passes like the first. */
  lemma LooperBeforeMessages(steps: seq<Step>)
    requires Run(START, steps).Some?
    ensures var s := Run(START, steps).value;
            && (s.calls != map[] || s.queue != {} ==> s.looper)
            && (s.waits > 0 ==> s.looper && s.ready.open && !s.ready.waiter.Blocked? && CanWait(s.ready))
  {
    RunKeepsInv(steps);
  }
}
