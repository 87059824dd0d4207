/** The power HAL's timed-request scheduler: senders queue events under fresh keys, one worker
    removes each event by its key and runs it, opening PM QoS descriptors and arranging for
    them to be closed.  Steps of senders, worker, clock and clients interleave freely. */
module PokeScheduler {
  import opened Options

  /** PM QoS nodes: /dev/cpu_freq_min, /dev/min_online_cpus and any other. */
  datatype Node = CpuFreqMin | MinOnlineCpus | Path(path: string)

  /** A PM QoS request, for a plain node or for a node with priorities. */
  datatype Request = Plain(node: Node, val: int) | Prioritised(node: Node, priority: int, max: int, min: int)

  datatype Event =
    | OpenTimed(request: Request, timeout: nat)
    | OpenHandle(request: Request)
    | Timeout(fd: nat)

  /** A looper message: not delivered before `due`. */
  datatype Msg = Msg(due: nat, key: nat)

  /** Where the worker thread is. */
  datatype Worker =
    | Resting
    | Delivered(key: nat)                            // message taken from the looper, event not yet looked up
    | Astray(key: nat)                               // a message whose key names no event
    | Running(key: nat, ev: Event)                   // event removed from the queue, not yet run
    | HoldingTimed(key: nat, fd: nat, timeout: nat)  // node open, its timeout not yet queued
    | HoldingHandle(key: nat, fd: nat)               // node open, its pipe not yet made
    | Ran(key: nat)                                  // run() returned, event not yet deleted

  /** What was sent under each key, and when. */
  datatype Sent = Sent(ev: Event, at: nat, due: nat)

  /** The history of PM QoS descriptors: which event opened one, not to be closed before
      `until`; when one was closed. */
  datatype Entry = Opened(fd: nat, key: nat, until: nat) | Closed(fd: nat, at: nat)

  datatype Holding = Holding(key: nat, until: nat)

  /** `callbacks` maps the server end of each pipe to the descriptor it keeps open.  The last
      four fields are history: they record what happened and influence nothing. */
  datatype State = State(now: nat, nextKey: nat, queued: map<nat, Event>, messages: multiset<Msg>,
                         worker: Worker, callbacks: map<nat, nat>,
                         sent: seq<Sent>, log: seq<Entry>, failed: set<nat>, deleted: set<nat>)

  /** What the system decides in a worker step: whether open and pipe succeed, and with which
      descriptors. */
  datatype Choice = Choice(ok: bool, fd: nat)

  datatype Step =
    | Tick(elapsed: nat)
    | Push(ev: Event)
    | Deliver(m: Msg)
    | Work(c: Choice)
    | Hangup(server: nat)

  const START := State(0, 0, map[], multiset{}, Resting, map[], [], [], {}, {})

  /** The descriptors that are open after a history, or `None` if the history opens one that
      is open, closes one that is not, or closes one too early. */
  function Replay(log: seq<Entry>): Option<map<nat, Holding>> {
    if log == [] then Some(map[])
    else
      var before := Replay(log[..|log| - 1]);
      if before.None? then None
      else
        match log[|log| - 1]
        case Opened(fd, key, until) =>
          if fd in before.value then None else Some(before.value[fd := Holding(key, until)])
        case Closed(fd, at) =>
          if fd in before.value && before.value[fd].until <= at then Some(before.value - {fd}) else None
  }

  // ---------- the operations ----------

  /** sendEventDelayed, one critical section under mEvLock. */
  function Send(s: State, delay: nat, ev: Event): State {
    s.(nextKey := s.nextKey + 1,
       queued := s.queued[s.nextKey := ev],
       messages := s.messages + multiset{Msg(s.now + delay, s.nextKey)},
       sent := s.sent + [Sent(ev, s.now, s.now + delay)])
  }

  /** The looper hands a message to the worker, without mEvLock. */
  function Take(s: State, m: Msg): State {
    s.(messages := s.messages - multiset{m}, worker := Delivered(m.key))
  }

  /** removeEventByKey, one critical section under mEvLock. */
  function Lookup(s: State, key: nat): State {
    s.(worker := if key in s.queued then Running(key, s.queued[key]) else Astray(key),
       queued := s.queued - {key})
  }

  function Close(s: State, fd: nat): State { s.(log := s.log + [Closed(fd, s.now)]) }

  /** The worker's next step inside handleMessage. */
  function Advance(s: State, c: Choice): State {
    match s.worker
    case Delivered(key) => Lookup(s, key)
    case Running(key, OpenTimed(_, timeout)) =>
      if !c.ok then s.(worker := Ran(key), failed := s.failed + {key})
      else s.(worker := HoldingTimed(key, c.fd, timeout), log := s.log + [Opened(c.fd, key, s.now + timeout)])
    case Running(key, OpenHandle(_)) =>
      if !c.ok then s.(worker := Ran(key), failed := s.failed + {key})
      else s.(worker := HoldingHandle(key, c.fd), log := s.log + [Opened(c.fd, key, s.now)])
    case Running(key, Timeout(fd)) => Close(s, fd).(worker := Ran(key))
    case HoldingTimed(key, fd, timeout) => Send(s, timeout, Timeout(fd)).(worker := Ran(key))
    case HoldingHandle(key, fd) =>
      if !c.ok then Close(s, fd).(worker := Ran(key), failed := s.failed + {key})
      else s.(worker := Ran(key), callbacks := s.callbacks[c.fd := fd])
    case Ran(key) => s.(worker := Resting, deleted := s.deleted + {key})
    case _ => s
  }

  predicate IsOpen(s: State, fd: nat) {
    fd in s.callbacks || (Replay(s.log).Some? && fd in Replay(s.log).value)
  }

  /** The worker is about to ask the system for a descriptor. */
  predicate NeedsFd(w: Worker) { (w.Running? && !w.ev.Timeout?) || w.HoldingHandle? }

  predicate Enabled(s: State, step: Step) {
    match step
    case Tick(_) => true
    case Push(ev) => !ev.Timeout?
    case Deliver(m) => s.worker.Resting? && m in s.messages && m.due <= s.now
    case Work(c) => !s.worker.Resting? && !s.worker.Astray? && (NeedsFd(s.worker) && c.ok ==> !IsOpen(s, c.fd))
    case Hangup(server) => s.worker.Resting? && server in s.callbacks
  }

  function Apply(s: State, step: Step): State
    requires Enabled(s, step)
  {
    match step
    case Tick(elapsed) => s.(now := s.now + elapsed)
    case Push(ev) => Send(s, 0, ev)
    case Deliver(m) => Take(s, m)
    case Work(c) => Advance(s, c)
    case Hangup(server) => Close(s, s.callbacks[server]).(callbacks := s.callbacks - {server})
  }

  function Run(s: State, steps: seq<Step>): Option<State> {
    if steps == [] then Some(s)
    else
      var before := Run(s, steps[..|steps| - 1]);
      if before.Some? && Enabled(before.value, steps[|steps| - 1])
      then Some(Apply(before.value, steps[|steps| - 1]))
      else None
  }

  // ---------- events and messages ----------

  function Busy(w: Worker): set<nat> {
    if w.Resting? || w.Delivered? || w.Astray? then {} else {w.key}
  }

  /** Every key ever given out names one event, which is queued, with the worker, or deleted,
      and never two of these. */
  ghost predicate KeysOk(s: State) {
    && s.nextKey == |s.sent|
    && (forall k :: k in s.queued ==> k < |s.sent| && s.queued[k] == s.sent[k].ev)
    && (forall k :: k in Busy(s.worker) ==> k < |s.sent|)
    && (forall k :: k in s.deleted ==> k < |s.sent|)
    && (forall k :: 0 <= k < |s.sent| ==> k in s.queued || k in Busy(s.worker) || k in s.deleted)
    && s.queued.Keys !! Busy(s.worker) && s.queued.Keys !! s.deleted && Busy(s.worker) !! s.deleted
    && !s.worker.Astray?
    && (s.worker.Running? ==> s.worker.ev == s.sent[s.worker.key].ev)
  }

  /** The pending messages are exactly one for each queued event, under its key and due when
      it was sent for; only the event whose message the worker has just taken has none. */
  ghost predicate MessagesOk(s: State) {
    && (forall m: Msg :: s.messages[m] ==
          if m.key in s.queued && m.key < |s.sent| && m.due == s.sent[m.key].due && s.worker != Delivered(m.key)
          then 1 else 0)
    && (s.worker.Delivered? ==>
          s.worker.key in s.queued && s.worker.key < |s.sent| && s.sent[s.worker.key].due <= s.now)
  }

  ghost predicate EventInv(s: State) { KeysOk(s) && MessagesOk(s) }

  lemma SendKeepsEvents(s: State, delay: nat, ev: Event)
    requires EventInv(s)
    ensures EventInv(Send(s, delay, ev))
  {
  }

  /** A pending message names a queued event, the one that was sent with it. */
  lemma MessageFinds(s: State, m: Msg)
    requires EventInv(s) && m in s.messages
    ensures m.key in s.queued && m.key < |s.sent| && s.queued[m.key] == s.sent[m.key].ev && s.sent[m.key].due == m.due
  {
    assert s.messages[m] > 0;
  }

  lemma TakeKeepsEvents(s: State, m: Msg)
    requires EventInv(s) && s.worker.Resting? && m in s.messages && m.due <= s.now
    ensures EventInv(Take(s, m))
  {
    MessageFinds(s, m);
  }

  /** The lookup finds the event that was sent under the key, whatever was sent meanwhile. */
  lemma LookupKeepsEvents(s: State)
    requires EventInv(s) && s.worker.Delivered?
    ensures var s' := Lookup(s, s.worker.key);
            EventInv(s') && s'.worker == Running(s.worker.key, s.sent[s.worker.key].ev)
  {
  }

  /** The worker moves on without touching the queue. */
  lemma WorkerKeepsEvents(s: State, s': State)
    requires EventInv(s) && s'.sent == s.sent && s'.nextKey == s.nextKey
    requires s'.queued == s.queued && s'.messages == s.messages
    requires !s.worker.Delivered? && !s'.worker.Delivered?
    requires Busy(s'.worker) + s'.deleted == Busy(s.worker) + s.deleted && Busy(s'.worker) !! s'.deleted
    requires !s'.worker.Astray? && !s'.worker.Running?
    ensures EventInv(s')
  {
    assert forall k :: k in Busy(s'.worker) + s'.deleted <==> k in Busy(s'.worker) || k in s'.deleted;
    assert forall k :: k in Busy(s.worker) + s.deleted <==> k in Busy(s.worker) || k in s.deleted;
  }

  lemma AdvanceFrame(s: State, c: Choice)
    requires !s.worker.Resting? && !s.worker.Delivered? && !s.worker.Astray? && !s.worker.HoldingTimed?
    requires Busy(s.worker) !! s.deleted
    ensures var s' := Advance(s, c);
            && s'.sent == s.sent && s'.queued == s.queued && s'.messages == s.messages && s'.nextKey == s.nextKey
            && s'.now == s.now
            && Busy(s'.worker) + s'.deleted == Busy(s.worker) + s.deleted && Busy(s'.worker) !! s'.deleted
            && !s'.worker.Delivered? && !s'.worker.Astray? && !s'.worker.Running?
  {
  }

  lemma AdvanceKeepsEvents(s: State, c: Choice)
    requires EventInv(s) && !s.worker.Resting? && !s.worker.Astray?
    ensures EventInv(Advance(s, c))
  {
    if s.worker.Delivered? {
      LookupKeepsEvents(s);
    } else if s.worker.HoldingTimed? {
      SendKeepsEvents(s, s.worker.timeout, Timeout(s.worker.fd));
      WorkerKeepsEvents(Send(s, s.worker.timeout, Timeout(s.worker.fd)), Advance(s, c));
    } else {
      AdvanceFrame(s, c);
      WorkerKeepsEvents(s, Advance(s, c));
    }
  }

  lemma StepKeepsEvents(s: State, step: Step)
    requires EventInv(s) && Enabled(s, step)
    ensures EventInv(Apply(s, step))
  {
    match step
    case Tick(_) =>
    case Push(ev) => SendKeepsEvents(s, 0, ev);
    case Deliver(m) => TakeKeepsEvents(s, m);
    case Work(c) => AdvanceKeepsEvents(s, c);
    case Hangup(_) =>
  }

  lemma {:induction false} RunKeepsEvents(steps: seq<Step>)
    requires Run(START, steps).Some?
    ensures EventInv(Run(START, steps).value)
  {
    if steps != [] {
      RunKeepsEvents(steps[..|steps| - 1]);
      StepKeepsEvents(Run(START, steps[..|steps| - 1]).value, steps[|steps| - 1]);
    }
  }

  /** How often a message with key `k` was delivered in a run. */
  function Deliveries(steps: seq<Step>, k: nat): nat {
    if steps == [] then 0
    else
      var last := steps[|steps| - 1];
      Deliveries(steps[..|steps| - 1], k) + if last.Deliver? && last.m.key == k then 1 else 0
  }

  /** An event that was sent and whose message has left the looper. */
  predicate Left(s: State, k: nat) { k < |s.sent| && (k !in s.queued || s.worker == Delivered(k)) }

  lemma OnlyDeliveryRemoves(s: State, step: Step, k: nat)
    requires EventInv(s) && Enabled(s, step)
    ensures if step.Deliver? && step.m.key == k then !Left(s, k) && Left(Apply(s, step), k)
            else Left(Apply(s, step), k) == Left(s, k)
  {
    match step
    case Deliver(m) => MessageFinds(s, m);
    case Work(c) => if !s.worker.Delivered? && !s.worker.HoldingTimed? { AdvanceFrame(s, c); }
    case _ =>
  }

  /** Under every interleaving each event is delivered at most once, exactly once when its
      message has left the looper, every lookup finds its event, and an event is deleted only after that
      and only once, since its key is never given out again. */
  lemma {:induction false} EachEventRunsOnce(steps: seq<Step>, k: nat)
    requires Run(START, steps).Some?
    ensures var s := Run(START, steps).value;
            && !s.worker.Astray?
            && Deliveries(steps, k) == (if Left(s, k) then 1 else 0)
            && (k in s.deleted ==> Deliveries(steps, k) == 1)
  {
    RunKeepsEvents(steps);
    if steps != [] {
      EachEventRunsOnce(steps[..|steps| - 1], k);
      RunKeepsEvents(steps[..|steps| - 1]);
      OnlyDeliveryRemoves(Run(START, steps[..|steps| - 1]).value, steps[|steps| - 1], k);
    }
  }

  // ---------- descriptors ----------

  /** The descriptors open after the history so far. */
  ghost function Held(s: State): map<nat, Holding>
    requires Replay(s.log).Some?
  {
    Replay(s.log).value
  }

  /** The one descriptor that the worker itself is responsible for, if any. */
  function InHand(w: Worker): Option<nat> {
    match w
    case Running(_, Timeout(fd)) => Some(fd)
    case HoldingTimed(_, fd, _) => Some(fd)
    case HoldingHandle(_, fd) => Some(fd)
    case _ => None
  }

  /** A queued timeout event for a descriptor. */
  predicate Pending(s: State, k: nat, fd: nat) { k in s.queued && s.queued[k] == Timeout(fd) }

  /** Every descriptor that somebody is responsible for is open, and nobody shares one. */
  ghost predicate OwnedOpen(s: State)
    requires Replay(s.log).Some?
  {
    && (forall k: nat, fd: nat :: Pending(s, k, fd) ==>
          fd in Held(s) && k < |s.sent| && Held(s)[fd].until <= s.sent[k].due)
    && (forall p :: p in s.callbacks ==> s.callbacks[p] in Held(s) && Held(s)[s.callbacks[p]].until <= s.now)
    && (InHand(s.worker).Some? ==> InHand(s.worker).value in Held(s))
    && (s.worker.Running? && s.worker.ev.Timeout? ==> Held(s)[s.worker.ev.fd].until <= s.now)
    && (s.worker.HoldingHandle? ==> Held(s)[s.worker.fd].until <= s.now)
    && (s.worker.HoldingTimed? ==> Held(s)[s.worker.fd].until <= s.now + s.worker.timeout)
  }

  ghost predicate OwnedDistinct(s: State) {
    && (forall k: nat, k': nat, fd: nat :: Pending(s, k, fd) && Pending(s, k', fd) ==> k == k')
    && (forall p, p' :: p in s.callbacks && p' in s.callbacks && s.callbacks[p] == s.callbacks[p'] ==> p == p')
    && (forall k: nat, p :: p in s.callbacks ==> !Pending(s, k, s.callbacks[p]))
    && (InHand(s.worker).Some? ==>
          && (forall k: nat :: !Pending(s, k, InHand(s.worker).value))
          && (forall p :: p in s.callbacks ==> s.callbacks[p] != InHand(s.worker).value))
  }

  /** Somebody is responsible for every open descriptor. */
  ghost predicate OpenOwned(s: State)
    requires Replay(s.log).Some?
  {
    forall fd :: fd in Held(s) ==>
      || InHand(s.worker) == Some(fd)
      || (exists k: nat :: Pending(s, k, fd))
      || (exists p :: p in s.callbacks && s.callbacks[p] == fd)
  }

  ghost predicate FdsOk(s: State) {
    Replay(s.log).Some? && OwnedOpen(s) && OwnedDistinct(s) && OpenOwned(s)
  }

  ghost predicate FdInv(s: State) { EventInv(s) && FdsOk(s) }

  lemma PushKeepsFds(s: State, ev: Event)
    requires FdInv(s) && !ev.Timeout?
    ensures FdsOk(Send(s, 0, ev))
  {
    var s' := Send(s, 0, ev);
    assert forall k: nat, fd: nat :: Pending(s', k, fd) <==> Pending(s, k, fd);
  }

  lemma LookupKeepsFds(s: State)
    requires FdInv(s) && s.worker.Delivered?
    ensures FdsOk(Lookup(s, s.worker.key))
  {
    var key := s.worker.key;
    var s' := Lookup(s, key);
    assert Held(s') == Held(s) && s'.callbacks == s.callbacks;
    assert forall k: nat, fd: nat :: Pending(s', k, fd) <==> Pending(s, k, fd) && k != key;
    if s.queued[key].Timeout? {
      assert Pending(s, key, s.queued[key].fd);
      assert InHand(s'.worker) == Some(s.queued[key].fd);
    } else {
      assert forall k: nat, fd: nat :: Pending(s', k, fd) <==> Pending(s, k, fd);
    }
  }

  /** The worker opens a node and takes the descriptor in hand. */
  lemma OpenKeepsFds(s: State, s': State, fd: nat, key: nat, until: nat)
    requires FdsOk(s) && fd !in Held(s) && InHand(s.worker).None?
    requires s' == s.(worker := s'.worker, log := s.log + [Opened(fd, key, until)])
    requires InHand(s'.worker) == Some(fd) && !s'.worker.Running?
    requires until <= if s'.worker.HoldingTimed? then s.now + s'.worker.timeout else s.now
    ensures FdsOk(s')
  {
    assert s'.log[..|s.log|] == s.log;
    assert Held(s') == Held(s)[fd := Holding(key, until)];
    assert forall k: nat, f: nat :: Pending(s', k, f) <==> Pending(s, k, f);
  }

  /** The worker closes the descriptor in hand. */
  lemma CloseKeepsFds(s: State, s': State, fd: nat)
    requires FdsOk(s) && InHand(s.worker) == Some(fd) && Held(s)[fd].until <= s.now
    requires s' == s.(worker := s'.worker, failed := s'.failed, log := s.log + [Closed(fd, s.now)])
    requires InHand(s'.worker).None?
    ensures FdsOk(s')
  {
    assert s'.log[..|s.log|] == s.log;
    assert Held(s') == Held(s) - {fd};
    assert forall k: nat, f: nat :: Pending(s', k, f) <==> Pending(s, k, f);
  }

  /** The callback of a pipe whose client end is gone closes the pipe's descriptor. */
  lemma HangupKeepsFds(s: State, server: nat)
    requires FdsOk(s) && server in s.callbacks && s.worker.Resting?
    ensures FdsOk(Close(s, s.callbacks[server]).(callbacks := s.callbacks - {server}))
  {
    var fd := s.callbacks[server];
    var s' := Close(s, fd).(callbacks := s.callbacks - {server});
    assert s'.log[..|s.log|] == s.log;
    assert Held(s') == Held(s) - {fd};
    assert forall k: nat, f: nat :: Pending(s', k, f) <==> Pending(s, k, f);
    forall f | f in Held(s')
      ensures (exists k: nat :: Pending(s', k, f)) || (exists p :: p in s'.callbacks && s'.callbacks[p] == f)
    {
      if !exists k: nat :: Pending(s, k, f) {
        var p :| p in s.callbacks && s.callbacks[p] == f;
        assert p in s'.callbacks && s'.callbacks[p] == f;
      }
    }
  }

  /** The timeout event of a descriptor in hand is queued. */
  lemma QueueTimeoutKeepsFds(s: State)
    requires FdInv(s) && s.worker.HoldingTimed?
    ensures FdsOk(Send(s, s.worker.timeout, Timeout(s.worker.fd)).(worker := Ran(s.worker.key)))
  {
    var s' := Send(s, s.worker.timeout, Timeout(s.worker.fd)).(worker := Ran(s.worker.key));
    assert forall k: nat, fd: nat :: Pending(s', k, fd) <==> Pending(s, k, fd) || (k == s.nextKey && fd == s.worker.fd);
    assert Pending(s', s.nextKey, s.worker.fd);
  }

  /** A pipe is made whose server end keeps the descriptor in hand open. */
  lemma RegisterKeepsFds(s: State, server: nat)
    requires FdsOk(s) && s.worker.HoldingHandle? && server !in s.callbacks
    ensures FdsOk(s.(worker := Ran(s.worker.key), callbacks := s.callbacks[server := s.worker.fd]))
  {
    var s' := s.(worker := Ran(s.worker.key), callbacks := s.callbacks[server := s.worker.fd]);
    assert forall k: nat, f: nat :: Pending(s', k, f) <==> Pending(s, k, f);
    assert s'.callbacks[server] == s.worker.fd;
    assert forall p :: p in s.callbacks ==> s'.callbacks[p] == s.callbacks[p];
  }

  lemma IdleKeepsFds(s: State, s': State)
    requires FdsOk(s) && InHand(s.worker).None? && InHand(s'.worker).None?
    requires s' == s.(worker := s'.worker, messages := s'.messages, failed := s'.failed, deleted := s'.deleted)
    ensures FdsOk(s')
  {
    assert forall k: nat, f: nat :: Pending(s', k, f) <==> Pending(s, k, f);
  }

  lemma RunningKeepsFds(s: State, c: Choice)
    requires FdsOk(s) && s.worker.Running? && (NeedsFd(s.worker) && c.ok ==> c.fd !in Held(s))
    ensures FdsOk(Advance(s, c))
  {
    var s' := Advance(s, c);
    if s.worker.ev.Timeout? {
      CloseKeepsFds(s, s', s.worker.ev.fd);
    } else if c.ok {
      OpenKeepsFds(s, s', c.fd, s.worker.key, s.now + if s.worker.ev.OpenTimed? then s.worker.ev.timeout else 0);
    } else {
      IdleKeepsFds(s, s');
    }
  }

  lemma AdvanceKeepsFds(s: State, c: Choice)
    requires FdInv(s) && Enabled(s, Work(c))
    ensures FdsOk(Advance(s, c))
  {
    if s.worker.Delivered? {
      LookupKeepsFds(s);
    } else if s.worker.Running? {
      RunningKeepsFds(s, c);
    } else if s.worker.HoldingTimed? {
      QueueTimeoutKeepsFds(s);
    } else if s.worker.HoldingHandle? {
      if c.ok { RegisterKeepsFds(s, c.fd); } else { CloseKeepsFds(s, Advance(s, c), s.worker.fd); }
    } else {
      IdleKeepsFds(s, Advance(s, c));
    }
  }

  lemma StepKeepsFds(s: State, step: Step)
    requires FdInv(s) && Enabled(s, step)
    ensures FdInv(Apply(s, step))
  {
    StepKeepsEvents(s, step);
    match step
    case Tick(_) =>
      var s' := Apply(s, step);
      assert forall k: nat, f: nat :: Pending(s', k, f) <==> Pending(s, k, f);
    case Push(ev) => PushKeepsFds(s, ev);
    case Deliver(m) => IdleKeepsFds(s, Take(s, m));
    case Work(c) => AdvanceKeepsFds(s, c);
    case Hangup(server) => HangupKeepsFds(s, server);
  }

  lemma {:induction false} RunKeepsFds(steps: seq<Step>)
    requires Run(START, steps).Some?
    ensures FdInv(Run(START, steps).value)
  {
    if steps != [] {
      RunKeepsFds(steps[..|steps| - 1]);
      StepKeepsFds(Run(START, steps[..|steps| - 1]).value, steps[|steps| - 1]);
    }
  }

  /** The open descriptor's own opening is the last thing the history says about it. */
  lemma {:induction false} HeldWasOpened(log: seq<Entry>, fd: nat) returns (i: nat)
    requires Replay(log).Some? && fd in Replay(log).value
    ensures i < |log| && log[i] == Opened(fd, Replay(log).value[fd].key, Replay(log).value[fd].until)
    ensures forall j :: i < j < |log| ==> log[j].fd != fd
  {
    i := |log| - 1;
    if log[i].fd != fd { i := HeldWasOpened(log[..|log| - 1], fd); }
  }

  /** In a history that replays, every close is preceded by the opening it answers, not before
      the time set for it, with no other close or opening of that descriptor in between: each
      opening is closed at most once. */
  lemma {:induction false} CloseAnswersOpen(log: seq<Entry>, i: nat) returns (j: nat)
    requires Replay(log).Some? && i < |log| && log[i].Closed?
    ensures j < i && log[j].Opened? && log[j].fd == log[i].fd && log[j].until <= log[i].at
    ensures forall k :: j < k < i ==> log[k].fd != log[i].fd
  {
    if i < |log| - 1 {
      j := CloseAnswersOpen(log[..|log| - 1], i);
    } else {
      j := HeldWasOpened(log[..|log| - 1], log[i].fd);
    }
  }

  /** Descriptor conservation: under every interleaving the history replays, so no descriptor is
      closed twice, early or without having been opened; the descriptors still open are exactly
      those of queued timeout events, of registered callbacks and the one in the worker's hand;
      and no two of these own the same one. */
  lemma DescriptorsConserved(steps: seq<Step>)
    requires Run(START, steps).Some?
    ensures var s := Run(START, steps).value;
            && Replay(s.log).Some?
            && (forall fd :: fd in Held(s) <==>
                  || InHand(s.worker) == Some(fd)
                  || (exists k: nat :: Pending(s, k, fd))
                  || (exists p :: p in s.callbacks && s.callbacks[p] == fd))
            && OwnedDistinct(s)
  {
    RunKeepsFds(steps);
  }

  // ---------- what becomes of a timed request ----------

  predicate IsHeldFor(s: State, k: nat, fd: nat) {
    Replay(s.log).Some? && fd in Replay(s.log).value && Replay(s.log).value[fd].key == k
  }

  /** A timed request is still queued or being opened, or its node failed to open, or a
      descriptor is held open for it, or its time is over. */
  ghost predicate Alive(s: State, k: nat)
    requires k < |s.sent|
  {
    || k in s.queued
    || (s.worker.Running? && s.worker.key == k)
    || k in s.failed
    || exists fd: nat :: IsHeldFor(s, k, fd)
  }

  ghost predicate Served(s: State, k: nat)
    requires k < |s.sent| && s.sent[k].ev.OpenTimed?
  {
    Alive(s, k) || s.sent[k].at + s.sent[k].ev.timeout <= s.now
  }

  ghost predicate RequestsOk(s: State) {
    && (forall k :: 0 <= k < |s.sent| ==> s.sent[k].at <= s.now)
    && (forall k :: 0 <= k < |s.sent| && s.sent[k].ev.OpenTimed? ==> Served(s, k))
    && (Replay(s.log).Some? ==> forall fd :: fd in Held(s) ==>
          var k := Held(s)[fd].key;
          k < |s.sent| && (s.sent[k].ev.OpenTimed? ==> s.sent[k].at + s.sent[k].ev.timeout <= Held(s)[fd].until))
  }

  lemma QuietKeepsRequests(s: State, s': State)
    requires KeysOk(s) && Replay(s.log).Some? && RequestsOk(s)
    requires s'.log == s.log && s'.failed >= s.failed && s'.now >= s.now
    requires |s'.sent| >= |s.sent| && s'.sent[..|s.sent|] == s.sent
    requires forall k :: |s.sent| <= k < |s'.sent| ==> s'.sent[k].at == s'.now && k in s'.queued
    requires forall k :: 0 <= k < |s.sent| && k in s.queued ==>
               k in s'.queued || (s'.worker.Running? && s'.worker.key == k)
    requires s.worker.Running? ==>
               || (s'.worker.Running? && s'.worker.key == s.worker.key)
               || s.worker.key in s'.failed || !s.sent[s.worker.key].ev.OpenTimed?
    ensures RequestsOk(s')
  {
    forall k | 0 <= k < |s.sent| ensures s'.sent[k] == s.sent[k] { assert s'.sent[..|s.sent|][k] == s.sent[k]; }
    forall k | 0 <= k < |s'.sent| && s'.sent[k].ev.OpenTimed? ensures Served(s', k) {
      if k < |s.sent| {
        assert Served(s, k);
        if fd: nat :| IsHeldFor(s, k, fd) { assert IsHeldFor(s', k, fd); }
      }
    }
    forall fd | fd in Held(s)
      ensures var k := Held(s)[fd].key;
              k < |s'.sent| && (s'.sent[k].ev.OpenTimed? ==> s'.sent[k].at + s'.sent[k].ev.timeout <= Held(s)[fd].until)
    {
      assert s'.sent[Held(s)[fd].key] == s.sent[Held(s)[fd].key];
    }
  }

  lemma OpenKeepsRequests(s: State, s': State, fd: nat)
    requires KeysOk(s) && Replay(s.log).Some? && RequestsOk(s) && s.worker.Running? && fd !in Held(s)
    requires var until := s.now + if s.worker.ev.OpenTimed? then s.worker.ev.timeout else 0;
             s' == s.(worker := s'.worker, log := s.log + [Opened(fd, s.worker.key, until)])
    ensures RequestsOk(s')
  {
    assert s'.log[..|s.log|] == s.log;
    var key := s.worker.key;
    assert IsHeldFor(s', key, fd);
    forall k | 0 <= k < |s'.sent| && s'.sent[k].ev.OpenTimed? ensures Served(s', k) {
      assert Served(s, k);
      if f: nat :| IsHeldFor(s, k, f) { assert IsHeldFor(s', k, f); }
    }
  }

  lemma CloseKeepsRequests(s: State, s': State, fd: nat)
    requires KeysOk(s) && Replay(s.log).Some? && RequestsOk(s) && fd in Held(s) && Held(s)[fd].until <= s.now
    requires s' == s.(worker := s'.worker, callbacks := s'.callbacks, failed := s'.failed,
                      log := s.log + [Closed(fd, s.now)])
    requires s'.failed >= s.failed && (s.worker.Running? ==> s.worker.ev.Timeout?)
    ensures RequestsOk(s')
  {
    assert s'.log[..|s.log|] == s.log;
    forall k | 0 <= k < |s'.sent| && s'.sent[k].ev.OpenTimed? ensures Served(s', k) {
      assert Served(s, k);
      if f: nat :| IsHeldFor(s, k, f) {
        if f != fd { assert IsHeldFor(s', k, f); }
      }
    }
  }

  /** The worker's step when an event starts to run, kind by kind. */
  lemma RunningStep(s: State, c: Choice)
    requires s.worker.Running?
    ensures var s', key, ev := Advance(s, c), s.worker.key, s.worker.ev;
            if ev.Timeout? then s' == Close(s, ev.fd).(worker := Ran(key))
            else if !c.ok then s' == s.(worker := Ran(key), failed := s.failed + {key})
            else
              var until := s.now + if ev.OpenTimed? then ev.timeout else 0;
              s' == s.(worker := s'.worker, log := s.log + [Opened(c.fd, key, until)]) && !s'.worker.Running?
  {
  }

  lemma RunningKeepsRequests(s: State, c: Choice)
    requires KeysOk(s) && Replay(s.log).Some? && RequestsOk(s) && s.worker.Running?
    requires NeedsFd(s.worker) && c.ok ==> c.fd !in Held(s)
    requires s.worker.ev.Timeout? ==> s.worker.ev.fd in Held(s) && Held(s)[s.worker.ev.fd].until <= s.now
    ensures RequestsOk(Advance(s, c))
  {
    var s' := Advance(s, c);
    RunningStep(s, c);
    if s.worker.ev.Timeout? {
      CloseKeepsRequests(s, s', s.worker.ev.fd);
    } else if c.ok {
      OpenKeepsRequests(s, s', c.fd);
    } else {
      QuietKeepsRequests(s, s');
    }
  }

  lemma HoldingKeepsRequests(s: State, c: Choice)
    requires KeysOk(s) && Replay(s.log).Some? && RequestsOk(s) && !s.worker.Running?
    requires s.worker.HoldingHandle? ==> s.worker.fd in Held(s) && Held(s)[s.worker.fd].until <= s.now
    ensures RequestsOk(Advance(s, c))
  {
    if s.worker.HoldingHandle? && !c.ok {
      CloseKeepsRequests(s, Advance(s, c), s.worker.fd);
    } else {
      QuietKeepsRequests(s, Advance(s, c));
    }
  }

  lemma PushKeepsRequests(s: State, ev: Event)
    requires KeysOk(s) && Replay(s.log).Some? && RequestsOk(s)
    ensures RequestsOk(Send(s, 0, ev))
  {
    QuietKeepsRequests(s, Send(s, 0, ev));
  }

  lemma TakeKeepsRequests(s: State, m: Msg)
    requires KeysOk(s) && Replay(s.log).Some? && RequestsOk(s) && s.worker.Resting?
    ensures RequestsOk(Take(s, m))
  {
    QuietKeepsRequests(s, Take(s, m));
  }

  lemma TickKeepsRequests(s: State, elapsed: nat)
    requires KeysOk(s) && Replay(s.log).Some? && RequestsOk(s)
    ensures RequestsOk(s.(now := s.now + elapsed))
  {
    QuietKeepsRequests(s, s.(now := s.now + elapsed));
  }

  lemma WorkKeepsRequests(s: State, c: Choice)
    requires FdInv(s) && RequestsOk(s) && (s.worker.Running? && NeedsFd(s.worker) && c.ok ==> c.fd !in Held(s))
    ensures RequestsOk(Advance(s, c))
  {
    if s.worker.Running? { RunningKeepsRequests(s, c); } else { HoldingKeepsRequests(s, c); }
  }

  lemma HangupKeepsRequests(s: State, server: nat)
    requires FdInv(s) && RequestsOk(s) && server in s.callbacks && s.worker.Resting?
    ensures RequestsOk(Close(s, s.callbacks[server]).(callbacks := s.callbacks - {server}))
  {
    var fd := s.callbacks[server];
    CloseKeepsRequests(s, Close(s, fd).(callbacks := s.callbacks - {server}), fd);
  }

  lemma StepKeepsRequests(s: State, step: Step)
    requires FdInv(s) && RequestsOk(s) && Enabled(s, step)
    ensures RequestsOk(Apply(s, step))
  {
    match step
    case Tick(elapsed) => TickKeepsRequests(s, elapsed);
    case Push(ev) => PushKeepsRequests(s, ev);
    case Deliver(m) => TakeKeepsRequests(s, m);
    case Work(c) => WorkKeepsRequests(s, c);
    case Hangup(server) => HangupKeepsRequests(s, server);
  }

  /** Under every interleaving a timed request is served: until its time is over, counted from
      when it was sent, it is queued, being opened, held open, or its node failed to open. */
  lemma {:induction false} RequestsServed(steps: seq<Step>)
    requires Run(START, steps).Some?
    ensures RequestsOk(Run(START, steps).value)
  {
    if steps != [] {
      RequestsServed(steps[..|steps| - 1]);
      RunKeepsFds(steps[..|steps| - 1]);
      StepKeepsRequests(Run(START, steps[..|steps| - 1]).value, steps[|steps| - 1]);
    }
  }
}
