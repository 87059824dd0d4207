/** When a dropped hint is sure to be covered.  check_hint reads the clock and compares later, so a
    hint can be turned away although, by then, the boost it was turned away for is over. */
module LateHints {
  import opened Options
  import opened PokeScheduler
  import opened PowerHints
  import B = BoostCoverage

  // ---------- the worker serves two requests ----------

  /** A set of states, such as the reachable ones, that no step of the scheduler leaves. */
  ghost predicate Steady(r: State -> bool) {
    forall s, step :: r(s) && Enabled(s, step) ==> r(Apply(s, step))
  }

  lemma Next(r: State -> bool, s: State, step: Step)
    requires Steady(r) && r(s) && Enabled(s, step)
    ensures r(Apply(s, step))
  {
  }

  const NO_FD := Choice(false, 0)

  /** The state after a timed request was opened with `fd` and its timeout queued. */
  function OpenedBy(s: State, m: Msg, fd: nat, timeout: nat): State {
    s.(nextKey := s.nextKey + 1,
       queued := (s.queued - {m.key})[s.nextKey := Timeout(fd)],
       messages := s.messages - multiset{m} + multiset{Msg(s.now + timeout, s.nextKey)},
       sent := s.sent + [Sent(Timeout(fd), s.now, s.now + timeout)],
       log := s.log + [Opened(fd, m.key, s.now + timeout)],
       deleted := s.deleted + {m.key})
  }

  /** The state after the worker took a message and found its event. */
  function Fetched(s: State, m: Msg): State
    requires m.key in s.queued
  {
    s.(messages := s.messages - multiset{m}, queued := s.queued - {m.key}, worker := Running(m.key, s.queued[m.key]))
  }

  /** The state after the worker opened a timed request with `fd` and deleted its event. */
  function Opening(s: State, fd: nat): State
    requires s.worker.Running? && s.worker.ev.OpenTimed?
  {
    var key, due := s.worker.key, s.now + s.worker.ev.timeout;
    s.(worker := Resting, nextKey := s.nextKey + 1, queued := s.queued[s.nextKey := Timeout(fd)],
       messages := s.messages + multiset{Msg(due, s.nextKey)},
       sent := s.sent + [Sent(Timeout(fd), s.now, due)],
       log := s.log + [Opened(fd, key, due)], deleted := s.deleted + {key})
  }

  lemma FetchEvent(r: State -> bool, s: State, m: Msg)
    requires Steady(r) && r(s) && s.worker.Resting? && m in s.messages && m.due <= s.now && m.key in s.queued
    ensures r(Fetched(s, m))
  {
    Next(r, s, Deliver(m));
    Next(r, Take(s, m), Work(NO_FD));
  }

  lemma RequestSteps(s: State, fd: nat)
    requires s.worker.Running? && s.worker.ev.OpenTimed?
    ensures var s1 := Advance(s, Choice(true, fd));
            var s2 := Advance(s1, NO_FD);
            s1.worker.HoldingTimed? && s2.worker.Ran? && Advance(s2, NO_FD) == Opening(s, fd)
  {
    var s1 := Advance(s, Choice(true, fd));
    assert s1.worker == HoldingTimed(s.worker.key, fd, s.worker.ev.timeout);
    var s2 := Advance(s1, NO_FD);
    assert s2.worker == Ran(s.worker.key);
  }

  lemma RunRequest(r: State -> bool, s: State, fd: nat)
    requires Steady(r) && r(s) && s.worker.Running? && s.worker.ev.OpenTimed? && !IsOpen(s, fd)
    ensures r(Opening(s, fd))
  {
    RequestSteps(s, fd);
    var s1 := Advance(s, Choice(true, fd));
    Next(r, s, Work(Choice(true, fd)));
    Next(r, s1, Work(NO_FD));
    Next(r, Advance(s1, NO_FD), Work(NO_FD));
  }

  lemma FetchedIsOpening(s: State, m: Msg, fd: nat, timeout: nat)
    requires s.worker.Resting? && m.key in s.queued && s.queued[m.key].OpenTimed? && s.queued[m.key].timeout == timeout
    ensures Opening(Fetched(s, m), fd) == OpenedBy(s, m, fd, timeout)
  {
    var a, b := Opening(Fetched(s, m), fd), OpenedBy(s, m, fd, timeout);
    assert a.worker == b.worker && a.nextKey == b.nextKey && a.queued == b.queued && a.messages == b.messages;
    assert a.sent == b.sent && a.log == b.log && a.deleted == b.deleted;
  }

  lemma FetchOpensNothing(s: State, m: Msg, fd: nat)
    requires m.key in s.queued && !IsOpen(s, fd)
    ensures !IsOpen(Fetched(s, m), fd)
  {
    assert Fetched(s, m).log == s.log && Fetched(s, m).callbacks == s.callbacks;
  }

  lemma ServeRequest(r: State -> bool, s: State, m: Msg, fd: nat, timeout: nat)
    requires Steady(r) && r(s) && s.worker.Resting? && m in s.messages && m.due <= s.now
    requires m.key in s.queued && s.queued[m.key].OpenTimed? && s.queued[m.key].timeout == timeout && !IsOpen(s, fd)
    ensures r(OpenedBy(s, m, fd, timeout))
  {
    FetchEvent(r, s, m);
    FetchOpensNothing(s, m, fd);
    FetchedIsOpening(s, m, fd, timeout);
    RunRequest(r, Fetched(s, m), fd);
  }

  /** The state after a timeout event was run. */
  function ClosedBy(s: State, m: Msg, fd: nat): State {
    s.(queued := s.queued - {m.key}, messages := s.messages - multiset{m},
       log := s.log + [Closed(fd, s.now)], deleted := s.deleted + {m.key})
  }

  lemma ServeTimeout(r: State -> bool, s: State, m: Msg, fd: nat)
    requires Steady(r) && r(s) && s.worker.Resting? && m in s.messages && m.due <= s.now
    requires m.key in s.queued && s.queued[m.key] == Timeout(fd)
    ensures r(ClosedBy(s, m, fd))
  {
    FetchEvent(r, s, m);
    var s1 := Fetched(s, m);
    Next(r, s1, Work(NO_FD));
    Next(r, Advance(s1, NO_FD), Work(NO_FD));
  }

  /** The worker rests, these events are queued with their messages, and these nodes are open. */
  ghost predicate Holds(s: State, queued: map<nat, Event>, held: map<nat, Holding>) {
    && s.worker.Resting? && s.callbacks == map[] && s.failed == {} && s.nextKey == |s.sent|
    && s.queued == queued && Replay(s.log) == Some(held)
  }

  lemma ReplaySnoc(log: seq<Entry>, e: Entry)
    requires Replay(log).Some?
    ensures Replay(log + [e]) ==
            match e
            case Opened(fd, key, until) =>
              if fd in Replay(log).value then None else Some(Replay(log).value[fd := Holding(key, until)])
            case Closed(fd, at) =>
              if fd in Replay(log).value && Replay(log).value[fd].until <= at then Some(Replay(log).value - {fd})
              else None
  {
    assert (log + [e])[..|log|] == log;
  }

  lemma OpenOne(r: State -> bool, s: State, m: Msg, fd: nat, timeout: nat,
                queued: map<nat, Event>, held: map<nat, Holding>)
      returns (s': State)
    requires Steady(r) && r(s) && Holds(s, queued, held) && m in s.messages && m.due <= s.now
    requires m.key in queued && queued[m.key].OpenTimed? && queued[m.key].timeout == timeout && fd !in held
    ensures r(s') && s'.now == s.now && s'.nextKey == s.nextKey + 1
    ensures Msg(s.now + timeout, s.nextKey) in s'.messages
    ensures forall x :: x in s.messages && x != m ==> x in s'.messages
    ensures Holds(s', (queued - {m.key})[s.nextKey := Timeout(fd)], held[fd := Holding(m.key, s.now + timeout)])
  {
    ServeRequest(r, s, m, fd, timeout);
    s' := OpenedBy(s, m, fd, timeout);
    ReplaySnoc(s.log, Opened(fd, m.key, s.now + timeout));
  }

  lemma CloseOne(r: State -> bool, s: State, m: Msg, fd: nat, queued: map<nat, Event>, held: map<nat, Holding>)
      returns (s': State)
    requires Steady(r) && r(s) && Holds(s, queued, held) && m in s.messages && m.due <= s.now
    requires m.key in queued && queued[m.key] == Timeout(fd) && fd in held && held[fd].until <= s.now
    ensures r(s') && s'.now == s.now && s'.nextKey == s.nextKey
    ensures forall x :: x in s.messages && x != m ==> x in s'.messages
    ensures Holds(s', queued - {m.key}, held - {fd})
  {
    ServeTimeout(r, s, m, fd);
    s' := ClosedBy(s, m, fd);
    ReplaySnoc(s.log, Closed(fd, s.now));
  }

  /** Two requests are queued under keys 0 and 1, sent and due at `n`. */
  ghost predicate Asked(s: State, n: nat, a: Event, b: Event) {
    && Holds(s, map[0 := a, 1 := b], map[]) && s.now == n && s.nextKey == 2
    && Msg(n, 0) in s.messages && Msg(n, 1) in s.messages
  }

  /** Both nodes are open, with descriptors 3 and 4, and their timeouts queued for `due`. */
  ghost predicate BothOpen(s: State, due: nat) {
    && Holds(s, map[2 := Timeout(3), 3 := Timeout(4)], map[3 := Holding(0, due), 4 := Holding(1, due)])
    && s.nextKey == 4 && Msg(due, 2) in s.messages && Msg(due, 3) in s.messages
  }

  lemma OpenBoth(r: State -> bool, s: State, n: nat, a: Event, b: Event, timeout: nat) returns (s': State)
    requires Steady(r) && r(s)
    requires Asked(s, n, a, b) && a.OpenTimed? && b.OpenTimed? && a.timeout == b.timeout == timeout
    ensures r(s') && BothOpen(s', n + timeout) && s'.now == n
  {
    var s1 := OpenOne(r, s, Msg(n, 0), 3, timeout, map[0 := a, 1 := b], map[]);
    var queued, held := map[1 := b, 2 := Timeout(3)], map[3 := Holding(0, n + timeout)];
    assert (map[0 := a, 1 := b] - {0})[2 := Timeout(3)] == queued;
    s' := OpenOne(r, s1, Msg(n, 1), 4, timeout, queued, held);
    assert (queued - {1})[3 := Timeout(4)] == map[2 := Timeout(3), 3 := Timeout(4)];
  }

  lemma CloseBoth(r: State -> bool, s: State, due: nat) returns (s': State)
    requires Steady(r) && r(s) && BothOpen(s, due) && due <= s.now
    ensures r(s') && Holds(s', map[], map[]) && s'.nextKey == 4 && s'.now == s.now
  {
    var queued, held := map[2 := Timeout(3), 3 := Timeout(4)], map[3 := Holding(0, due), 4 := Holding(1, due)];
    var s1 := CloseOne(r, s, Msg(due, 2), 3, queued, held);
    assert queued - {2} == map[3 := Timeout(4)] && held - {3} == map[4 := Holding(1, due)];
    s' := CloseOne(r, s1, Msg(due, 3), 4, map[3 := Timeout(4)], map[4 := Holding(1, due)]);
    assert map[3 := Timeout(4)] - {3} == map[] && map[4 := Holding(1, due)] - {4} == map[];
  }

  // ---------- a hint decided late ----------

  /** Steps of the scheduler are moves of the whole system. */
  lemma StableIsSteady(r: B.System -> bool, s: B.System)
    requires B.Stable(r)
    ensures Steady(x => r(s.(sched := x)))
  {
    forall x, step | r(s.(sched := x)) && Enabled(x, step) ensures r(s.(sched := Apply(x, step))) {
      B.Proceed(r, s.(sched := x), B.Schedule(step));
    }
  }

  /** A hint of this kind whose clock reading is `second` is about to be turned away at time `at`,
      for an accepted one, with or without data, that read the clock at `first`. */
  ghost predicate Dropping(s: B.System, c: nat, kind: nat, data: bool, first: nat, second: nat, at: nat) {
    && c in s.callers && s.callers[c].Sampled? && s.callers[c].kind == kind
    && B.Micros(s.callers[c].ns) == second && B.TurnsAway(s, c)
    && kind in s.last && s.last[kind].data == data && B.Micros(s.last[kind].ns) == first
    && B.Micros(s.sched.now) == at
  }

  ghost predicate DroppedAt(s0: B.System, moves: seq<B.Move>, c: nat,
                            kind: nat, data: bool, first: nat, second: nat, at: nat)
  {
    && B.Init(s0) && B.Run(s0, moves).Some?
    && Dropping(B.Run(s0, moves).value, c, kind, data, first, second, at)
  }

  const IDLE := B.System(START, map[], map[0 := B.Away, 1 := B.Away], 0, map[], [])

  /** Thread 0 reads the clock and is accepted. */
  lemma Accepted(r: B.System -> bool, kind: nat, data: bool, first: nat) returns (s: B.System)
    requires B.Stable(r) && r(IDLE) && kind < HINT_COUNT && 0 < first < B.CLOCK_END
    ensures r(s) && s.sched == START.(now := 1000 * first) && s.hintTime == map[] && s.last == map[]
    ensures s.callers == map[0 := B.Pushing(kind, data, 1000 * first, []), 1 := B.Away] && s.maxFrequency == 0
  {
    B.Proceed(r, IDLE, B.Schedule(Tick(1000 * first)));
    var s1 := B.Apply(IDLE, B.Schedule(Tick(1000 * first)));
    B.Proceed(r, s1, B.Sample(0, kind, data));
    var s2 := B.Apply(s1, B.Sample(0, kind, data));
    assert !B.TurnsAway(s2, 0);
    B.Proceed(r, s2, B.Decide(0));
    s := B.Apply(s2, B.Decide(0));
  }

  /** Thread 1 reads the clock at `second`, and time passes until `at`. */
  lemma ReadAndWait(r: B.System -> bool, s: B.System, kind: nat, second: nat, at: nat) returns (s': B.System)
    requires B.Stable(r) && r(s) && s.callers == map[0 := B.Away, 1 := B.Away]
    requires s.sched.now <= 1000 * second && 0 < second < B.CLOCK_END && second <= at
    ensures r(s')
    ensures s' == s.(sched := s.sched.(now := 1000 * at),
                     callers := map[0 := B.Away, 1 := B.Sampled(kind, true, 1000 * second)])
  {
    var t1 := B.Schedule(Tick(1000 * second - s.sched.now));
    B.Proceed(r, s, t1);
    var s1 := B.Apply(s, t1);
    B.Proceed(r, s1, B.Sample(1, kind, true));
    var s2 := B.Apply(s1, B.Sample(1, kind, true));
    var t2 := B.Schedule(Tick(1000 * (at - second)));
    B.Proceed(r, s2, t2);
    s' := B.Apply(s2, t2);
  }

  lemma RecentIsDropped(last: nat, kind: nat, time: nat)
    requires 0 < last <= time < last + Interval(kind)
    ensures Drops(last, kind, time)
  {
    assert time - last < TWO_64;
  }

  lemma SentIsAsked(n: nat, a: Event, b: Event)
    ensures Asked(Send(Send(START.(now := n), 0, a), 0, b), n, a, b)
  {
    var s := Send(Send(START.(now := n), 0, a), 0, b);
    assert s.queued == map[0 := a, 1 := b];
  }

  /** Both requests are opened, thread 1 reads the clock, time passes and both are closed. */
  lemma LateRun(r: B.System -> bool, s: B.System, kind: nat, first: nat, second: nat, at: nat,
                a: Event, b: Event, timeout: nat)
      returns (s': B.System)
    requires B.Stable(r) && r(s) && Asked(s.sched, 1000 * first, a, b) && s.callers == map[0 := B.Away, 1 := B.Away]
    requires a.OpenTimed? && b.OpenTimed? && a.timeout == b.timeout == timeout
    requires 0 < first <= second < B.CLOCK_END && second <= at && 1000 * first + timeout <= 1000 * at
    ensures r(s') && s'.hintTime == s.hintTime && s'.last == s.last
    ensures s'.callers == map[0 := B.Away, 1 := B.Sampled(kind, true, 1000 * second)]
    ensures Holds(s'.sched, map[], map[]) && s'.sched.nextKey == 4 && s'.sched.now == 1000 * at
  {
    var due := 1000 * first + timeout;
    StableIsSteady(r, s);
    assert s.(sched := s.sched) == s;
    var open := OpenBoth(x => r(s.(sched := x)), s.sched, 1000 * first, a, b, timeout);
    var s2 := ReadAndWait(r, s.(sched := open), kind, second, at);
    assert BothOpen(s2.sched, due);
    StableIsSteady(r, s2);
    assert s2.(sched := s2.sched) == s2;
    var closed := CloseBoth(x => r(s2.(sched := x)), s2.sched, due);
    s' := s2.(sched := closed);
  }

  lemma LateState(r: B.System -> bool, kind: nat, data: bool, first: nat, second: nat, at: nat) returns (s: B.System)
    requires B.Stable(r) && r(IDLE) && kind in {VSYNC, INTERACTION, LAUNCH} && (kind == VSYNC ==> data)
    requires 0 < first <= second < first + Interval(kind) <= at && second < B.CLOCK_END
    ensures r(s) && Dropping(s, 1, kind, data, first, second, at)
    ensures s.last[kind].keys == [0, 1] && Holds(s.sched, map[], map[]) && s.sched.nextKey == 4
  {
    var requests := Requests(kind, data, 0);
    var a, b := requests[0], requests[1];
    var s1 := Accepted(r, kind, data, first);
    var s2 := B.Finish(r, s1, 0);
    SentIsAsked(1000 * first, a, b);
    s := LateRun(r, s2, kind, first, second, at, a, b, 1000 * Interval(kind));
    RecentIsDropped(first, kind, second);
  }

  /** For any two readings closer than the interval: a hint is turned away for a boost both of
      whose requests were opened, timed out and closed before the decision. */
  lemma LateDropIsUncovered(kind: nat, data: bool, first: nat, second: nat, at: nat)
      returns (s0: B.System, moves: seq<B.Move>)
    requires kind in {VSYNC, INTERACTION, LAUNCH} && (kind == VSYNC ==> data)
    requires 0 < first <= second < first + Interval(kind) <= at && second < B.CLOCK_END
    ensures DroppedAt(s0, moves, 1, kind, data, first, second, at)
    ensures var s := B.Run(s0, moves).value;
            s.last[kind].keys == [0, 1] && |s.sched.sent| == 4 && !Alive(s.sched, 0) && !Alive(s.sched, 1)
  {
    s0 := IDLE;
    B.ReachableIsStable(s0);
    var s := LateState(s => B.Reachable(IDLE, s), kind, data, first, second, at);
    moves :| B.Run(s0, moves) == Some(s);
  }

  lemma EmptyState(r: B.System -> bool, first: nat, second: nat, at: nat) returns (s: B.System)
    requires B.Stable(r) && r(IDLE)
    requires 0 < first <= second < first + Interval(VSYNC) && second <= at && second < B.CLOCK_END
    ensures r(s) && Dropping(s, 1, VSYNC, false, first, second, at) && s.last[VSYNC].keys == []
  {
    var s1 := Accepted(r, VSYNC, false, first);
    B.Proceed(r, s1, B.Commit(0));
    s := ReadAndWait(r, B.Apply(s1, B.Commit(0)), VSYNC, second, at);
    RecentIsDropped(first, VSYNC, second);
  }

  /** A VSYNC hint without data boosts nothing, at any time. */
  lemma EmptyBoostDrops(first: nat, second: nat, at: nat) returns (s0: B.System, moves: seq<B.Move>)
    requires 0 < first <= second < first + Interval(VSYNC) && second <= at && second < B.CLOCK_END
    ensures DroppedAt(s0, moves, 1, VSYNC, false, first, second, at)
    ensures B.Run(s0, moves).value.last[VSYNC].keys == []
  {
    s0 := IDLE;
    B.ReachableIsStable(s0);
    var s := EmptyState(s => B.Reachable(IDLE, s), first, second, at);
    moves :| B.Run(s0, moves) == Some(s);
  }

  // ---------- the exact condition ----------

  /** However the threads and the worker are scheduled, such a hint is covered by a live boost. */
  ghost predicate SurelyBoosted(kind: nat, data: bool, first: nat, second: nat, at: nat) {
    forall s0, moves, c :: DroppedAt(s0, moves, c, kind, data, first, second, at) ==>
      B.Boosted(B.Run(s0, moves).value, kind)
  }

  /** Coverage, exactly: a dropped hint is sure to be covered if and only if it is decided before
      the accepted hint's interval is over and, for VSYNC, the accepted hint carried data. */
  lemma CoveredExactlyWhen(kind: nat, data: bool, first: nat, second: nat, at: nat)
    requires kind in {VSYNC, INTERACTION, LAUNCH}
    requires 0 < first <= second < first + Interval(kind) && second <= at && second < B.CLOCK_END
    ensures SurelyBoosted(kind, data, first, second, at) <==>
            at < first + Interval(kind) && (kind != VSYNC || data)
  {
    if kind == VSYNC && !data {
      var s0, moves := EmptyBoostDrops(first, second, at);
      assert !B.Boosted(B.Run(s0, moves).value, kind);
    } else if at >= first + Interval(kind) {
      var s0, moves := LateDropIsUncovered(kind, data, first, second, at);
      var s := B.Run(s0, moves).value;
      assert s.last[kind].keys[0] == 0 && !B.Boosted(s, kind);
    } else {
      forall s0, moves, c | DroppedAt(s0, moves, c, kind, data, first, second, at)
        ensures B.Boosted(B.Run(s0, moves).value, kind)
      {
        B.BoostedExactlyWhen(s0, moves, c);
      }
    }
  }
}
