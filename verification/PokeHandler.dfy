/** TimeoutPoker::PokeHandler as an object.  Its history is a run of the scheduler that ends in
    its present state, and every method extends it; so whatever is proved of every run is an
    invariant of the object. */
module PokeHandler {
  import opened Options
  import opened PokeScheduler

  /** A run made longer by one step. */
  lemma RunSnoc(steps: seq<Step>, step: Step)
    requires Run(START, steps).Some? && Enabled(Run(START, steps).value, step)
    ensures Run(START, steps + [step]) == Some(Apply(Run(START, steps).value, step))
  {
    assert (steps + [step])[..|steps|] == steps;
  }

  /** The descriptors open in a state of the scheduler. */
  function Open(s: State): map<nat, Holding> { if Replay(s.log).Some? then Replay(s.log).value else map[] }

  /** The worker's steps that run one event to its end. */
  function Finished(s: State, c: Choice, pipe: Choice): State
    requires s.worker.Running?
  {
    if s.worker.ev.Timeout? || !c.ok then Advance(s, c)
    else Advance(Advance(s, c), if s.worker.ev.OpenHandle? then pipe else c)
  }

  /** A timeout event for the descriptor is queued under the key, due at the given time. */
  predicate TimeoutQueued(s: State, key: nat, fd: nat, due: nat) {
    Pending(s, key, fd) && key < |s.sent| && s.sent[key].due == due
  }

  lemma TimedSteps(s: State, c: Choice)
    requires s.worker.Running? && s.worker.ev.OpenTimed? && c.ok && s.nextKey == |s.sent|
    ensures var timeout := s.worker.ev.timeout;
            var s' := Finished(s, c, c);
            && s' == Send(Advance(s, c), timeout, Timeout(c.fd)).(worker := Ran(s.worker.key))
            && TimeoutQueued(s', s.nextKey, c.fd, s.now + timeout)
  {
  }

  lemma FinishedFrame(s: State, c: Choice, pipe: Choice)
    requires s.worker.Running?
    ensures var s' := Finished(s, c, pipe); s'.worker == Ran(s.worker.key) && s'.now == s.now && s'.deleted == s.deleted
  {
    var s1 := Advance(s, c);
    assert s1.now == s.now && s1.deleted == s.deleted;
    match s.worker.ev
    case OpenTimed(_, _) => assert c.ok ==> s1.worker.HoldingTimed?;
    case OpenHandle(_) => assert c.ok ==> s1.worker.HoldingHandle?;
    case Timeout(_) =>
  }

  lemma FinishedSent(s: State, c: Choice, pipe: Choice)
    requires s.worker.Running?
    ensures var sent := Finished(s, c, pipe).sent;
            s.sent <= sent && forall k :: |s.sent| <= k < |sent| ==> sent[k].ev.Timeout?
  {
    var s1 := Advance(s, c);
    assert s1.sent == s.sent;
    match s.worker.ev
    case OpenTimed(_, _) => assert c.ok ==> s1.worker.HoldingTimed?;
    case OpenHandle(_) => assert c.ok ==> s1.worker.HoldingHandle?;
    case Timeout(_) =>
  }

  lemma FinishedCallbacks(s: State, c: Choice, pipe: Choice)
    requires s.worker.Running?
    ensures Finished(s, c, pipe).callbacks ==
            if s.worker.ev.OpenHandle? && c.ok && pipe.ok then s.callbacks[pipe.fd := c.fd] else s.callbacks
  {
    var s1 := Advance(s, c);
    match s.worker.ev
    case OpenTimed(_, _) => assert c.ok ==> s1.worker.HoldingTimed?;
    case OpenHandle(_) => assert c.ok ==> s1.worker == HoldingHandle(s.worker.key, c.fd);
    case Timeout(_) =>
  }

  /** The handles that callers hold stay apart from what running an event opens. */
  lemma OutcomeKeepsClients(ev: Event, key: nat, now: nat, c: Choice, pipe: Pipe,
                            before: map<nat, Holding>, after: map<nat, Holding>,
                            clients: map<nat, nat>, callbacks: map<nat, nat>)
    requires Outcome(ev, key, now, c, pipe.ok, before, after) && ClientsOk(clients, callbacks, before)
    requires c.ok ==> c.fd !in clients.Values
    requires pipe.ok ==> && pipe.server !in callbacks && pipe.server !in clients.Values
                         && pipe.client !in clients.Values
                         && pipe.client !in callbacks && pipe.client !in before
                         && pipe.client != pipe.server && pipe.client != c.fd
    ensures if ev.OpenHandle? && c.ok && pipe.ok
            then ClientsOk(clients[pipe.server := pipe.client], callbacks[pipe.server := c.fd], after)
            else ClientsOk(clients, callbacks, after)
  {
  }

  /** What running an event does to the open descriptors: at most one is opened, to be kept until
      its time or for its handle; or the one that timed out is closed. */
  predicate Outcome(ev: Event, key: nat, now: nat, c: Choice, pipe: bool,
                    before: map<nat, Holding>, after: map<nat, Holding>)
  {
    match ev
    case OpenTimed(_, timeout) => after == if c.ok then before[c.fd := Holding(key, now + timeout)] else before
    case OpenHandle(_) => after == if c.ok && pipe then before[c.fd := Holding(key, now)] else before
    case Timeout(fd) => fd in before && after == before - {fd}
  }

  lemma ReplayOpened(log: seq<Entry>, fd: nat, key: nat, until: nat)
    requires Replay(log).Some? && Replay(log + [Opened(fd, key, until)]).Some?
    ensures fd !in Replay(log).value
    ensures Replay(log + [Opened(fd, key, until)]).value == Replay(log).value[fd := Holding(key, until)]
  {
    assert (log + [Opened(fd, key, until)])[..|log|] == log;
  }

  lemma ReplayClosed(log: seq<Entry>, fd: nat, at: nat)
    requires Replay(log).Some? && Replay(log + [Closed(fd, at)]).Some?
    ensures fd in Replay(log).value && Replay(log + [Closed(fd, at)]).value == Replay(log).value - {fd}
  {
    assert (log + [Closed(fd, at)])[..|log|] == log;
  }

  /** Opened and closed again. */
  lemma ReplayBoth(log: seq<Entry>, longer: seq<Entry>, fd: nat, key: nat, now: nat)
    requires Replay(log).Some? && longer == log + [Opened(fd, key, now)] && Replay(longer).Some?
    requires Replay(longer + [Closed(fd, now)]).Some?
    ensures Replay(longer + [Closed(fd, now)]).value == Replay(log).value
  {
    ReplayOpened(log, fd, key, now);
    var held := Replay(log).value;
    assert Replay(longer).value == held[fd := Holding(key, now)] && fd !in held;
    ReplayClosed(longer, fd, now);
    assert held[fd := Holding(key, now)] - {fd} == held;
  }

  /** The history after an event was run to its end. */
  function LogAfter(ev: Event, key: nat, now: nat, c: Choice, pipe: bool, log: seq<Entry>): seq<Entry> {
    match ev
    case OpenTimed(_, timeout) => if c.ok then log + [Opened(c.fd, key, now + timeout)] else log
    case OpenHandle(_) =>
      if !c.ok then log
      else if pipe then log + [Opened(c.fd, key, now)]
      else log + [Opened(c.fd, key, now)] + [Closed(c.fd, now)]
    case Timeout(fd) => log + [Closed(fd, now)]
  }

  lemma FinishedLog(s: State, c: Choice, pipe: Choice)
    requires s.worker.Running?
    ensures Finished(s, c, pipe).log == LogAfter(s.worker.ev, s.worker.key, s.now, c, pipe.ok, s.log)
    ensures s.worker.ev.OpenHandle? && c.ok ==> Advance(s, c).log == s.log + [Opened(c.fd, s.worker.key, s.now)]
  {
    match s.worker.ev
    case OpenTimed(_, _) => assert c.ok ==> Advance(s, c).worker.HoldingTimed?;
    case OpenHandle(_) => assert c.ok ==> Advance(s, c).worker == HoldingHandle(s.worker.key, c.fd);
    case Timeout(_) =>
  }

  lemma LogOutcome(ev: Event, key: nat, now: nat, c: Choice, pipe: bool, log: seq<Entry>)
    requires Replay(log).Some? && Replay(LogAfter(ev, key, now, c, pipe, log)).Some?
    requires ev.OpenHandle? && c.ok ==> Replay(log + [Opened(c.fd, key, now)]).Some?
    ensures Outcome(ev, key, now, c, pipe, Replay(log).value, Replay(LogAfter(ev, key, now, c, pipe, log)).value)
  {
    match ev
    case OpenTimed(_, timeout) => if c.ok { ReplayOpened(log, c.fd, key, now + timeout); }
    case OpenHandle(_) =>
      if c.ok {
        if pipe {
          ReplayOpened(log, c.fd, key, now);
        } else {
          ReplayBoth(log, log + [Opened(c.fd, key, now)], c.fd, key, now);
        }
      }
    case Timeout(fd) => ReplayClosed(log, fd, now);
  }

  /** What pipe yields: both ends, or failure. */
  datatype Pipe = Pipe(ok: bool, server: nat, client: nat)

  /** The caller's side of a handle request: where the result goes, and the barrier it waits at. */
  class Reply {
    var outFd: int
    var open: bool
  }

  /** The handles that callers hold: each belongs to one registered server end, and none is itself a
      server end or a PM QoS descriptor. */
  ghost predicate ClientsOk(clients: map<nat, nat>, callbacks: map<nat, nat>, held: map<nat, Holding>) {
    && (forall p :: p in clients ==> p in callbacks && clients[p] !in callbacks && clients[p] !in held)
    && (forall p, q :: p in clients && q in clients && clients[p] == clients[q] ==> p == q)
  }

  /** Exactly the handle requests carry a reply, and no two carry the same. */
  ghost predicate RepliesOk(sent: seq<Sent>, replies: map<nat, Reply>) {
    && (forall k: nat :: k in replies <==> k < |sent| && sent[k].ev.OpenHandle?)
    && (forall j, k :: j in replies && k in replies && replies[j] == replies[k] ==> j == k)
  }

  lemma GrowKeepsReplies(sent: seq<Sent>, replies: map<nat, Reply>, sent': seq<Sent>)
    requires RepliesOk(sent, replies) && sent <= sent'
    requires forall k :: |sent| <= k < |sent'| ==> !sent'[k].ev.OpenHandle?
    ensures RepliesOk(sent', replies)
  {
  }

  lemma AddKeepsReplies(sent: seq<Sent>, replies: map<nat, Reply>, sent': seq<Sent>, reply: Reply)
    requires RepliesOk(sent, replies) && reply !in replies.Values
    requires |sent'| == |sent| + 1 && sent <= sent' && sent'[|sent|].ev.OpenHandle?
    ensures RepliesOk(sent', replies[|sent| := reply])
  {
  }

  class PokeHandler {
    var now: nat
    var nextKey: nat
    var queued: map<nat, Event>
    var messages: multiset<Msg>
    var callbacks: map<nat, nat>
    var replies: map<nat, Reply>   // the pointers that a handle request carries, by its key
    ghost var worker: Worker
    ghost var sent: seq<Sent>
    ghost var log: seq<Entry>
    ghost var failed: set<nat>
    ghost var deleted: set<nat>
    ghost var history: seq<Step>
    ghost var clients: map<nat, nat>   // the client ends that callers hold, by their server ends

    ghost function View(): State
      reads this
    {
      State(now, nextKey, queued, messages, worker, callbacks, sent, log, failed, deleted)
    }

    /** The history is a run of the scheduler that ends in the present state. */
    ghost predicate InRun()
      reads this
    {
      Run(START, history) == Some(View())
    }

    ghost predicate Valid()
      reads this
    {
      InRun() && RepliesOk(sent, replies) && ClientsOk(clients, callbacks, Open(View()))
    }

    /** A number that the system may return for a new descriptor. */
    ghost predicate Unused(fd: nat)
      reads this
    {
      !IsOpen(View(), fd) && fd !in clients.Values
    }

    /** The objects that the event under this key writes through. */
    ghost function Addressee(key: nat): set<object>
      reads this
    {
      if key in replies then {replies[key]} else {}
    }

    constructor ()
      ensures Valid() && View() == START && history == [] && replies == map[] && clients == map[]
    {
      now, nextKey, queued, messages, callbacks, replies := 0, 0, map[], multiset{}, map[], map[];
      clients := map[];
      worker, sent, log, failed, deleted, history := Resting, [], [], {}, {}, [];
    }

    /** The fields have changed as one step of the scheduler changes its state. */
    ghost method Stepped(step: Step, before: State)
      requires Run(START, history) == Some(before) && Enabled(before, step) && View() == Apply(before, step)
      modifies this`history
      ensures InRun() && View() == old(View()) && history == old(history) + [step]
    {
      RunSnoc(history, step);
      history := history + [step];
    }

    /** Time passes. */
    method Wait(elapsed: nat)
      requires Valid()
      modifies this`now, this`history
      ensures Valid() && old(history) <= history && View() == old(View()).(now := old(now) + elapsed)
    {
      ghost var before := View();
      now := now + elapsed;
      Stepped(Tick(elapsed), before);
    }

    method GenerateNewKey() returns (key: nat)
      modifies this`nextKey
      ensures key == old(nextKey) && nextKey == key + 1
    {
      key := nextKey;
      nextKey := nextKey + 1;
    }

    method SendEventDelayed(delay: nat, ev: Event)
      modifies this`nextKey, this`queued, this`messages, this`sent
      ensures View() == Send(old(View()), delay, ev)
    {
      ghost var before := View();
      var key := GenerateNewKey();
      queued := queued[key := ev];
      messages := messages + multiset{Msg(now + delay, key)};
      sent := sent + [Sent(ev, now, now + delay)];
      assert View() == Send(before, delay, ev);
    }

    /** TimeoutPoker::pushEvent: the event waits in the queue under a key never used before. */
    method PushEvent(ev: Event)
      requires Valid() && ev.OpenTimed?
      modifies this`nextKey, this`queued, this`messages, this`sent, this`history
      ensures Valid() && View() == Send(old(View()), 0, ev) && history == old(history) + [Push(ev)]
      ensures old(nextKey) !in old(queued) && old(nextKey) !in deleted && queued[old(nextKey)] == ev
    {
      Enqueue(ev);
      GrowKeepsReplies(old(sent), replies, sent);
    }

    /** pushEvent in createPmQosHandle: the event carries the caller's own result and barrier. */
    method PushHandle(request: Request, reply: Reply)
      requires Valid() && reply !in replies.Values
      modifies this`nextKey, this`queued, this`messages, this`sent, this`history, this`replies
      ensures Valid() && View() == Send(old(View()), 0, OpenHandle(request)) && old(history) <= history
      ensures replies == old(replies)[old(nextKey) := reply] && old(nextKey) !in old(replies)
    {
      assert nextKey == |sent| by { RunKeepsEvents(history); }
      replies := replies[nextKey := reply];
      Enqueue(OpenHandle(request));
      AddKeepsReplies(old(sent), old(replies), sent, reply);
    }

    /** sendEventDelayed without a delay, as a sender's step. */
    method Enqueue(ev: Event)
      requires InRun() && !ev.Timeout?
      modifies this`nextKey, this`queued, this`messages, this`sent, this`history
      ensures InRun() && View() == Send(old(View()), 0, ev) && history == old(history) + [Push(ev)]
      ensures old(nextKey) !in old(queued) && old(nextKey) !in deleted && queued[old(nextKey)] == ev
    {
      assert nextKey !in queued && nextKey !in deleted by { RunKeepsEvents(history); }
      ghost var before := View();
      SendEventDelayed(0, ev);
      Stepped(Push(ev), before);
    }

    /** The looper delivers a message that is due. */
    method TakeMessage(m: Msg)
      requires InRun() && worker.Resting? && m in messages && m.due <= now
      modifies this`messages, this`worker, this`history
      ensures old(history) <= history
      ensures InRun() && View() == Take(old(View()), m)
    {
      ghost var before := View();
      messages := messages - multiset{m};
      worker := Delivered(m.key);
      Stepped(Deliver(m), before);
    }

    /** The lookup finds the event that was sent under the key, and removes it; so handleMessage
        never meets a null event. */
    method RemoveEventByKey(key: nat) returns (ev: Option<Event>)
      requires InRun() && worker == Delivered(key)
      modifies this`queued, this`worker, this`history
      ensures old(history) <= history
      ensures InRun() && View() == Lookup(old(View()), key)
      ensures key < |sent| && ev == Some(sent[key].ev) && worker == Running(key, sent[key].ev)
    {
      ghost var before := View();
      assert key in queued && key < |sent| && queued[key] == sent[key].ev by { RunKeepsEvents(history); }
      ev := if key in queued then Some(queued[key]) else None;
      worker := Running(key, queued[key]);
      queued := queued - {key};
      Stepped(Work(Choice(false, 0)), before);
    }

    /** open of a PM QoS node; `c` tells whether it succeeds and with which descriptor. */
    method OpenPmQosNode(c: Choice) returns (fd: int)
      requires InRun() && worker.Running? && !worker.ev.Timeout? && (c.ok ==> !IsOpen(View(), c.fd))
      modifies this`worker, this`log, this`failed, this`history
      ensures old(history) <= history
      ensures InRun() && View() == Advance(old(View()), c)
      ensures fd == if c.ok then c.fd else -1
    {
      if c.ok {
        Opens(c);
        fd := c.fd;
      } else {
        Fails(c);
        fd := -1;
      }
    }

    ghost method Opens(c: Choice)
      requires InRun() && worker.Running? && !worker.ev.Timeout? && c.ok && !IsOpen(View(), c.fd)
      modifies this`worker, this`log, this`history
      ensures InRun() && View() == Advance(old(View()), c) && old(history) <= history
    {
      var before := View();
      RunningStep(before, c);
      log := log + [Opened(c.fd, worker.key, now + if worker.ev.OpenTimed? then worker.ev.timeout else 0)];
      worker := if worker.ev.OpenTimed? then HoldingTimed(worker.key, c.fd, worker.ev.timeout)
                else HoldingHandle(worker.key, c.fd);
      assert worker == Advance(before, c).worker;
      assert View() == Advance(before, c);
      Stepped(Work(c), before);
    }

    ghost method Fails(c: Choice)
      requires InRun() && worker.Running? && !worker.ev.Timeout? && !c.ok
      modifies this`worker, this`failed, this`history
      ensures InRun() && View() == Advance(old(View()), c) && old(history) <= history
    {
      var before := View();
      RunningStep(before, c);
      failed := failed + {worker.key};
      worker := Ran(worker.key);
      Stepped(Work(c), before);
    }

    method CloseFd(fd: nat)
      modifies this`log
      ensures View() == Close(old(View()), fd)
    {
      log := log + [Closed(fd, now)];
    }

    /** openPmQosTimed: a node that opens is kept open until a timeout event, queued for that
        time, closes it; one that does not open leaves nothing behind. */
    method OpenPmQosTimed(timeout: nat, c: Choice)
      requires InRun() && worker.Running? && worker.ev.OpenTimed? && worker.ev.timeout == timeout
      requires c.ok ==> !IsOpen(View(), c.fd)
      modifies this
      ensures replies == old(replies) && clients == old(clients) && old(history) <= history
      ensures InRun() && View() == Finished(old(View()), c, c)
      ensures c.ok ==> TimeoutQueued(View(), old(nextKey), c.fd, now + timeout)
      ensures !c.ok ==> queued == old(queued) && log == old(log)
    {
      ghost var before := View();
      var fd := OpenPmQosNode(c);
      if fd < 0 {
        return;
      }
      assert before.nextKey == |before.sent| by { RunKeepsEvents(old(history)); }
      TimedSteps(before, c);
      QueueTimeout(timeout, fd);
      assert View() == Finished(before, c, c);
    }

    /** The second half of openPmQosTimed. */
    method QueueTimeout(timeout: nat, fd: nat)
      requires InRun() && worker.HoldingTimed? && worker.fd == fd && worker.timeout == timeout
      modifies this`nextKey, this`queued, this`messages, this`sent, this`worker, this`history
      ensures old(history) <= history
      ensures InRun() && View() == Send(old(View()), timeout, Timeout(fd)).(worker := Ran(old(worker.key)))
    {
      ghost var before := View();
      SendEventDelayed(timeout, Timeout(fd));
      worker := Ran(worker.key);
      Stepped(Work(Choice(false, 0)), before);
    }

    /** createHandleForPmQosRequest: the client end of a new pipe whose server end keeps the node
        open, or -1. */
    method CreateHandleForPmQosRequest(c: Choice, pipe: Pipe) returns (handle: int)
      requires InRun() && worker.Running? && worker.ev.OpenHandle? && (c.ok ==> !IsOpen(View(), c.fd))
      requires pipe.ok ==> !IsOpen(View(), pipe.server) && pipe.server != c.fd
      modifies this
      ensures replies == old(replies) && clients == old(clients) && old(history) <= history
      ensures InRun() && View() == Finished(old(View()), c, Choice(pipe.ok, pipe.server))
      ensures handle == if c.ok && pipe.ok then pipe.client else -1
      ensures callbacks == if c.ok && pipe.ok then old(callbacks)[pipe.server := c.fd] else old(callbacks)
    {
      handle := -1;
      ghost var s0 := View();
      var fd := OpenPmQosNode(c);
      if fd >= 0 {
        if pipe.ok { StillClosed(s0, c, pipe.server); }
        handle := CreateHandleForFd(fd, pipe);
      }
    }

    method CreateHandleForFd(fd: nat, pipe: Pipe) returns (handle: int)
      requires InRun() && worker.HoldingHandle? && worker.fd == fd && (pipe.ok ==> !IsOpen(View(), pipe.server))
      modifies this
      ensures replies == old(replies) && clients == old(clients) && old(history) <= history
      ensures InRun() && View() == Advance(old(View()), Choice(pipe.ok, pipe.server))
      ensures handle == if pipe.ok then pipe.client else -1
    {
      ghost var before := View();
      if pipe.ok {
        callbacks := callbacks[pipe.server := fd];
        handle := pipe.client;
      } else {
        CloseFd(fd);
        failed := failed + {worker.key};
        handle := -1;
      }
      worker := Ran(worker.key);
      Stepped(Work(Choice(pipe.ok, pipe.server)), before);
    }

    /** timeoutRequest */
    method TimeoutRequest(fd: nat)
      requires InRun() && worker.Running? && worker.ev == Timeout(fd)
      modifies this`log, this`worker, this`history
      ensures old(history) <= history
      ensures InRun() && View() == Close(old(View()), fd).(worker := Ran(old(worker.key)))
    {
      ghost var before := View();
      CloseFd(fd);
      worker := Ran(worker.key);
      Stepped(Work(Choice(false, 0)), before);
    }

    /** The event's run method: the descriptors change as the event asks.  A handle request stores
        its result through the pointer it carries, then opens the barrier it carries; no other
        caller's result or barrier changes.  The result is the client end of the pipe whose server
        end now keeps the node open, or -1. */
    method RunEvent(key: nat, ev: Event, c: Choice, pipe: Pipe)
      requires Valid() && worker == Running(key, ev) && (c.ok ==> Unused(c.fd))
      requires pipe.ok ==> Unused(pipe.server) && Unused(pipe.client)
      requires pipe.ok ==> pipe.server != pipe.client && pipe.server != c.fd && pipe.client != c.fd
      modifies this, Addressee(key)
      ensures Valid() && View() == Finished(old(View()), c, Choice(pipe.ok, pipe.server))
      ensures replies == old(replies) && old(history) <= history
      ensures worker == Ran(key) && now == old(now) && deleted == old(deleted)
      ensures Outcome(ev, key, now, c, pipe.ok, Open(old(View())), Open(View()))
      ensures ev.OpenHandle? <==> key in replies
      ensures ev.OpenHandle? ==> && replies[key].open
                                 && replies[key].outFd == if c.ok && pipe.ok then pipe.client else -1
      ensures if ev.OpenHandle? && c.ok && pipe.ok
              then && callbacks == old(callbacks)[pipe.server := c.fd]
                   && clients == old(clients)[pipe.server := pipe.client]
              else callbacks == old(callbacks) && clients == old(clients)
    {
      ghost var before, was := View(), history;
      ghost var second := Choice(pipe.ok, pipe.server);
      assert key < |sent| && ev == sent[key].ev by { RunKeepsEvents(history); }
      Dispatch(key, ev, c, pipe);
      FinishedFrame(before, c, second);
      FinishedSent(before, c, second);
      GrowKeepsReplies(before.sent, replies, sent);
      RunsHaveOutcomes(before, was, View(), history, c, second);
      FinishedCallbacks(before, c, second);
      OutcomeKeepsClients(ev, key, now, c, pipe, Open(before), Open(View()), old(clients), before.callbacks);
    }

    /** The virtual call of run, by the kind of event. */
    method Dispatch(key: nat, ev: Event, c: Choice, pipe: Pipe)
      requires InRun() && worker == Running(key, ev) && (c.ok ==> !IsOpen(View(), c.fd))
      requires pipe.ok ==> !IsOpen(View(), pipe.server) && pipe.server != c.fd
      requires ev.OpenHandle? <==> key in replies
      modifies this, Addressee(key)
      ensures InRun() && View() == Finished(old(View()), c, Choice(pipe.ok, pipe.server))
      ensures replies == old(replies) && old(history) <= history
      ensures ev.OpenHandle? ==> && replies[key].open
                                 && replies[key].outFd == if c.ok && pipe.ok then pipe.client else -1
      ensures clients == if ev.OpenHandle? && c.ok && pipe.ok then old(clients)[pipe.server := pipe.client]
                         else old(clients)
    {
      match ev {
        case OpenTimed(_, timeout) =>
          OpenPmQosTimed(timeout, c);
        case OpenHandle(_) =>
          var handle := CreateHandleForPmQosRequest(c, pipe);
          if handle >= 0 { clients := clients[pipe.server := pipe.client]; }
          var reply := replies[key];
          reply.outFd := handle;
          reply.open := true;
        case Timeout(fd) =>
          TimeoutRequest(fd);
      }
    }

    /** delete e */
    method DeleteEvent()
      requires InRun() && worker.Ran?
      modifies this`worker, this`deleted, this`history
      ensures old(history) <= history
      ensures InRun() && View() == old(View()).(worker := Resting, deleted := old(deleted) + {old(worker.key)})
    {
      ghost var before := View();
      deleted := deleted + {worker.key};
      worker := Resting;
      Stepped(Work(Choice(false, 0)), before);
    }

    /** handleMessage from the looper's delivery to the deletion of the event: the event that was
        sent under the key is run and gone, the open descriptors change as it asks, and a handle
        request has answered its own caller. */
    method HandleMessage(m: Msg, c: Choice, pipe: Pipe)
      requires Valid() && worker.Resting? && m in messages && m.due <= now
      requires c.ok ==> Unused(c.fd)
      requires pipe.ok ==> Unused(pipe.server) && Unused(pipe.client)
      requires pipe.ok ==> pipe.server != pipe.client && pipe.server != c.fd && pipe.client != c.fd
      modifies this, Addressee(m.key)
      ensures Valid() && worker.Resting? && m.key in deleted && m.key < |old(sent)|
      ensures replies == old(replies) && old(history) <= history
      ensures Outcome(old(sent)[m.key].ev, m.key, now, c, pipe.ok, Open(old(View())), Open(View()))
      ensures old(sent)[m.key].ev.OpenHandle? <==> m.key in replies
      ensures m.key in replies ==> && replies[m.key].open
                                   && replies[m.key].outFd == if c.ok && pipe.ok then pipe.client else -1
      // A handle given to a caller is no server end and no PM QoS descriptor, and the server end of
      // its own pipe is registered for the descriptor opened for this request.
      ensures m.key in replies && c.ok && pipe.ok ==>
                && pipe.client !in callbacks && pipe.client !in Open(View())
                && pipe.server in callbacks && callbacks[pipe.server] == c.fd && c.fd in Open(View())
    {
      ghost var s0 := View();
      var e := FetchEvent(m);
      ghost var s1 := View();
      SameFds(s0, s1);
      RunEvent(m.key, e, c, pipe);
      ghost var s2 := View();
      DeleteEvent();
      SameFds(s2, View());
      assert Outcome(e, m.key, s0.now, c, pipe.ok, Open(s0), Open(View()));
    }

    /** The first half of handleMessage: the message's own event leaves the queue. */
    method FetchEvent(m: Msg) returns (ev: Event)
      requires InRun() && worker.Resting? && m in messages && m.due <= now
      modifies this`messages, this`queued, this`worker, this`history
      ensures old(history) <= history
      ensures InRun() && m.key < |sent| && ev == sent[m.key].ev && worker == Running(m.key, ev)
      ensures m.key in old(queued) && queued == old(queued) - {m.key} && messages == old(messages) - multiset{m}
    {
      assert m.key in queued by {
        RunKeepsEvents(history);
        MessageFinds(View(), m);
      }
      TakeMessage(m);
      var found := RemoveEventByKey(m.key);
      ev := found.value;
    }

    /** A caller closes its handle. */
    ghost method ClientCloses(server: nat)
      requires Valid()
      modifies this`clients
      ensures Valid() && clients == old(clients) - {server}
    {
      clients := clients - {server};
    }

    /** pipeCloseCb: when the client end is gone, the descriptor is closed and the callback
        forgotten; otherwise it stays registered. */
    method PipeCloseCb(server: nat, gone: bool) returns (again: int)
      requires Valid() && worker.Resting? && server in callbacks
      modifies this`log, this`callbacks, this`history, this`clients
      ensures gone ==> callbacks == old(callbacks) - {server} && clients == old(clients) - {server}
      ensures Valid() && old(history) <= history
      ensures if gone then again == 0 && View() == Apply(old(View()), Hangup(server))
              else again == 1 && View() == old(View())
      ensures gone ==> && old(callbacks)[server] in Open(old(View()))
                       && Open(View()) == Open(old(View())) - {old(callbacks)[server]}
    {
      if gone {
        ghost var before, was := View(), history;
        CloseFd(callbacks[server]);
        callbacks := callbacks - {server};
        clients := clients - {server};
        Stepped(Hangup(server), before);
        HangupCloses(before, was, server, history);
        return 0;
      }
      return 1;
    }
  }

  lemma SameFds(s: State, s': State)
    requires s'.log == s.log && s'.callbacks == s.callbacks
    ensures Open(s') == Open(s) && forall fd :: IsOpen(s', fd) == IsOpen(s, fd)
  {
  }

  lemma StillClosed(s: State, c: Choice, fd: nat)
    requires s.worker.Running? && !s.worker.ev.Timeout? && c.ok && fd != c.fd
    ensures IsOpen(Advance(s, c), fd) ==> IsOpen(s, fd)
  {
    var s' := Advance(s, c);
    assert s'.log[..|s.log|] == s.log;
  }

  lemma RunsHaveOutcomes(s: State, steps: seq<Step>, s': State, steps': seq<Step>, c: Choice, pipe: Choice)
    requires Run(START, steps) == Some(s) && s.worker.Running? && (NeedsFd(s.worker) && c.ok ==> !IsOpen(s, c.fd))
    requires s' == Finished(s, c, pipe) && Run(START, steps') == Some(s')
    ensures Outcome(s.worker.ev, s.worker.key, s.now, c, pipe.ok, Open(s), Open(s'))
  {
    RunKeepsFds(steps);
    RunSnoc(steps, Work(c));
    RunKeepsFds(steps + [Work(c)]);
    RunKeepsFds(steps');
    FinishedLog(s, c, pipe);
    LogOutcome(s.worker.ev, s.worker.key, s.now, c, pipe.ok, s.log);
  }

  lemma HangupCloses(s: State, steps: seq<Step>, server: nat, steps': seq<Step>)
    requires Run(START, steps) == Some(s) && Enabled(s, Hangup(server))
    requires Run(START, steps') == Some(Apply(s, Hangup(server)))
    ensures s.callbacks[server] in Open(s) && Open(Apply(s, Hangup(server))) == Open(s) - {s.callbacks[server]}
  {
    RunKeepsFds(steps);
    RunKeepsFds(steps');
    ReplayClosed(s.log, s.callbacks[server], s.now);
  }

  /** The object's invariant in full: keys, messages and events in bijection; every open descriptor
      owned exactly once; every timed request alive until its time is over. */
  lemma HandlerIsSound(h: PokeHandler)
    requires h.Valid()
    ensures EventInv(h.View()) && FdInv(h.View()) && RequestsOk(h.View())
    ensures forall p :: p in h.clients ==>
              && p in h.callbacks && h.callbacks[p] in Open(h.View())
              && h.clients[p] !in h.callbacks && h.clients[p] !in Open(h.View())
  {
    RunKeepsFds(h.history);
    RequestsServed(h.history);
  }
}
