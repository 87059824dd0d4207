/** The limiter and the scheduler together, with any number of threads giving hints at once: a
    hint is turned away only while the boost of an earlier one is being served.  The clock
    counts nanoseconds; hints are compared in microseconds. */
module BoostCoverage {
  import opened Options
  import opened PokeScheduler
  import opened PowerHints

  /** Where a thread is inside common_power_hint: it has read the clock, or its hint was
      accepted and `keys` requests of it are pushed. */
  datatype Caller =
    | Away
    | Sampled(kind: nat, data: bool, ns: nat)
    | Pushing(kind: nat, data: bool, ns: nat, keys: seq<nat>)

  /** An accepted hint, completely pushed: when it read the clock and the keys of its requests. */
  datatype Boost = Boost(data: bool, ns: nat, keys: seq<nat>)

  /** The last two fields are history: the boost that wrote the recorded time of each kind, and
      the hints accepted so far, in the order of the decisions. */
  datatype System = System(sched: State, hintTime: map<nat, nat>, callers: map<nat, Caller>,
                           maxFrequency: int, last: map<nat, Boost>, accepted: seq<Hint>)

  datatype Move =
    | Schedule(step: Step)
    | Sample(c: nat, kind: nat, data: bool)
    | Decide(c: nat)
    | PushNext(c: nat)
    | Commit(c: nat)

  /** The clock is not read at zero nor beyond this many microseconds. */
  const CLOCK_END: int := 0x8000_0000_0000_0000

  function Micros(ns: nat): nat { ns / 1000 }

  function Recorded(s: System, kind: nat): nat { if kind in s.hintTime then s.hintTime[kind] else 0 }

  /** The decision that check_hint makes for a thread that has read the clock. */
  predicate TurnsAway(s: System, c: nat)
    requires c in s.callers && s.callers[c].Sampled?
  {
    var p := s.callers[c];
    p.kind >= HINT_COUNT || Drops(Recorded(s, p.kind), p.kind, Micros(p.ns))
  }

  predicate Enabled(s: System, m: Move) {
    match m
    case Schedule(step) => PokeScheduler.Enabled(s.sched, step)
    case Sample(c, _, _) => c in s.callers && s.callers[c].Away? && 0 < Micros(s.sched.now) < CLOCK_END
    case Decide(c) => c in s.callers && s.callers[c].Sampled?
    case PushNext(c) =>
      c in s.callers && s.callers[c].Pushing?
      && |s.callers[c].keys| < |Requests(s.callers[c].kind, s.callers[c].data, s.maxFrequency)|
    case Commit(c) =>
      c in s.callers && s.callers[c].Pushing?
      && |s.callers[c].keys| == |Requests(s.callers[c].kind, s.callers[c].data, s.maxFrequency)|
  }

  function Apply(s: System, m: Move): System
    requires Enabled(s, m)
  {
    match m
    case Schedule(step) => s.(sched := PokeScheduler.Apply(s.sched, step))
    case Sample(c, kind, data) => s.(callers := s.callers[c := Sampled(kind, data, s.sched.now)])
    case Decide(c) =>
      var p := s.callers[c];
      if TurnsAway(s, c) then s.(callers := s.callers[c := Away])
      else s.(callers := s.callers[c := Pushing(p.kind, p.data, p.ns, [])],
              accepted := s.accepted + [Hint(p.kind, Micros(p.ns))])
    case PushNext(c) =>
      var p := s.callers[c];
      s.(sched := Send(s.sched, 0, Requests(p.kind, p.data, s.maxFrequency)[|p.keys|]),
         callers := s.callers[c := p.(keys := p.keys + [s.sched.nextKey])])
    case Commit(c) =>
      var p := s.callers[c];
      s.(hintTime := s.hintTime[p.kind := Micros(p.ns)], last := s.last[p.kind := Boost(p.data, p.ns, p.keys)],
         callers := s.callers[c := Away])
  }

  predicate Init(s: System) {
    && s.sched == START && s.hintTime == map[] && s.last == map[] && s.accepted == []
    && forall c :: c in s.callers ==> s.callers[c].Away?
  }

  function Run(s: System, moves: seq<Move>): Option<System> {
    if moves == [] then Some(s)
    else
      var before := Run(s, moves[..|moves| - 1]);
      if before.Some? && Enabled(before.value, moves[|moves| - 1])
      then Some(Apply(before.value, moves[|moves| - 1]))
      else None
  }

  // ---------- the invariant ----------

  /** The keys name requests of this hint, sent after the clock was read. */
  ghost predicate Pushed(sched: State, kind: nat, data: bool, maxFrequency: int, ns: nat, keys: seq<nat>) {
    && |keys| <= |Requests(kind, data, maxFrequency)|
    && forall i :: 0 <= i < |keys| ==>
         && keys[i] < |sched.sent| && ns <= sched.sent[keys[i]].at
         && sched.sent[keys[i]].ev == Requests(kind, data, maxFrequency)[i]
  }

  ghost predicate CallerOk(s: System, p: Caller) {
    match p
    case Away => true
    case Sampled(_, _, ns) => ns <= s.sched.now && 0 < Micros(ns) < CLOCK_END
    case Pushing(kind, data, ns, keys) =>
      ns <= s.sched.now && 0 < Micros(ns) < CLOCK_END && Pushed(s.sched, kind, data, s.maxFrequency, ns, keys)
  }

  ghost predicate LastOk(s: System) {
    && s.hintTime.Keys == s.last.Keys
    && forall kind :: kind in s.last ==>
         var b := s.last[kind];
         && 0 < s.hintTime[kind] == Micros(b.ns) < CLOCK_END && b.ns <= s.sched.now
         && |b.keys| == |Requests(kind, b.data, s.maxFrequency)|
         && Pushed(s.sched, kind, b.data, s.maxFrequency, b.ns, b.keys)
  }

  ghost predicate Inv(s: System) {
    && FdInv(s.sched) && RequestsOk(s.sched)
    && LastOk(s)
    && forall c :: c in s.callers ==> CallerOk(s, s.callers[c])
  }

  /** Nothing sent is forgotten and the clock does not go back. */
  ghost predicate Later(s: State, s': State) {
    && s.now <= s'.now && |s.sent| <= |s'.sent|
    && forall k :: 0 <= k < |s.sent| ==> s'.sent[k] == s.sent[k]
  }

  lemma StepIsLater(s: State, step: Step)
    requires PokeScheduler.Enabled(s, step)
    ensures Later(s, PokeScheduler.Apply(s, step))
  {
  }

  lemma LaterKeepsPushed(s: State, s': State, kind: nat, data: bool, maxFrequency: int, ns: nat, keys: seq<nat>)
    requires Later(s, s') && Pushed(s, kind, data, maxFrequency, ns, keys)
    ensures Pushed(s', kind, data, maxFrequency, ns, keys)
  {
  }

  lemma LaterKeeps(s: System, sched: State)
    requires LastOk(s) && (forall c :: c in s.callers ==> CallerOk(s, s.callers[c])) && Later(s.sched, sched)
    ensures LastOk(s.(sched := sched)) && forall c :: c in s.callers ==> CallerOk(s.(sched := sched), s.callers[c])
  {
    forall kind | kind in s.last
      ensures var b := s.last[kind]; Pushed(sched, kind, b.data, s.maxFrequency, b.ns, b.keys)
    {
      var b := s.last[kind];
      LaterKeepsPushed(s.sched, sched, kind, b.data, s.maxFrequency, b.ns, b.keys);
    }
    forall c | c in s.callers ensures CallerOk(s.(sched := sched), s.callers[c]) {
      var p := s.callers[c];
      if p.Pushing? { LaterKeepsPushed(s.sched, sched, p.kind, p.data, s.maxFrequency, p.ns, p.keys); }
    }
  }

  lemma ScheduleKeeps(s: System, step: Step)
    requires Inv(s) && PokeScheduler.Enabled(s.sched, step)
    ensures Inv(s.(sched := PokeScheduler.Apply(s.sched, step)))
  {
    StepKeepsFds(s.sched, step);
    StepKeepsRequests(s.sched, step);
    StepIsLater(s.sched, step);
    LaterKeeps(s, PokeScheduler.Apply(s.sched, step));
  }

  /** Only one thread's position changes, and the history. */
  lemma CallerKeeps(s: System, c: nat, p: Caller, accepted: seq<Hint>)
    requires Inv(s) && CallerOk(s, p)
    ensures Inv(s.(callers := s.callers[c := p], accepted := accepted))
  {
    var s' := s.(callers := s.callers[c := p], accepted := accepted);
    forall d | d in s'.callers ensures CallerOk(s', s'.callers[d]) {
      if d != c { assert CallerOk(s, s.callers[d]); }
    }
  }

  lemma NextKeyPushed(s: State, kind: nat, data: bool, maxFrequency: int, ns: nat, keys: seq<nat>)
    requires s.nextKey == |s.sent| && ns <= s.now && Pushed(s, kind, data, maxFrequency, ns, keys)
    requires |keys| < |Requests(kind, data, maxFrequency)|
    ensures var ev := Requests(kind, data, maxFrequency)[|keys|];
            Pushed(Send(s, 0, ev), kind, data, maxFrequency, ns, keys + [s.nextKey])
  {
  }

  lemma PushNextKeeps(s: System, c: nat)
    requires Inv(s) && Enabled(s, PushNext(c))
    ensures Inv(Apply(s, PushNext(c)))
  {
    var p := s.callers[c];
    assert CallerOk(s, p);
    var ev := Requests(p.kind, p.data, s.maxFrequency)[|p.keys|];
    DurationIsInterval(p.kind, p.data, s.maxFrequency, |p.keys|);
    ScheduleKeeps(s, Push(ev));
    NextKeyPushed(s.sched, p.kind, p.data, s.maxFrequency, p.ns, p.keys);
    CallerKeeps(s.(sched := Send(s.sched, 0, ev)), c, p.(keys := p.keys + [s.sched.nextKey]), s.accepted);
  }

  lemma DecideKeeps(s: System, c: nat)
    requires Inv(s) && Enabled(s, Decide(c))
    ensures Inv(Apply(s, Decide(c)))
  {
    assert CallerOk(s, s.callers[c]);
    var s' := Apply(s, Decide(c));
    CallerKeeps(s, c, s'.callers[c], s'.accepted);
  }

  lemma CommitKeeps(s: System, c: nat)
    requires Inv(s) && Enabled(s, Commit(c))
    ensures Inv(Apply(s, Commit(c)))
  {
    assert CallerOk(s, s.callers[c]);
    var s1, s' := s.(callers := s.callers[c := Away]), Apply(s, Commit(c));
    CallerKeeps(s, c, Away, s.accepted);
    forall d | d in s'.callers ensures CallerOk(s', s'.callers[d]) { assert CallerOk(s1, s1.callers[d]); }
  }

  lemma MoveKeeps(s: System, m: Move)
    requires Inv(s) && Enabled(s, m)
    ensures Inv(Apply(s, m))
  {
    match m
    case Schedule(step) => ScheduleKeeps(s, step);
    case PushNext(c) => PushNextKeeps(s, c);
    case Sample(c, _, _) => CallerKeeps(s, c, Apply(s, m).callers[c], s.accepted);
    case Decide(c) => DecideKeeps(s, c);
    case Commit(c) => CommitKeeps(s, c);
  }

  lemma {:induction false} RunKeeps(s: System, moves: seq<Move>)
    requires Init(s) && Run(s, moves).Some?
    ensures Inv(Run(s, moves).value)
  {
    if moves == [] {
      RunKeepsFds([]);
      RequestsServed([]);
    } else {
      RunKeeps(s, moves[..|moves| - 1]);
      MoveKeeps(Run(s, moves[..|moves| - 1]).value, moves[|moves| - 1]);
    }
  }

  // ---------- coverage ----------

  /** A request of the recorded boost is alive until its interval is over. */
  lemma BoostIsAlive(s: System, kind: nat, i: nat)
    requires Inv(s) && kind in s.last && i < |s.last[kind].keys|
    requires Micros(s.sched.now) < Micros(s.last[kind].ns) + Interval(kind)
    ensures s.last[kind].keys[i] < |s.sched.sent| && Alive(s.sched, s.last[kind].keys[i])
  {
    var b := s.last[kind];
    DurationIsInterval(kind, b.data, s.maxFrequency, i);
    assert Pushed(s.sched, kind, b.data, s.maxFrequency, b.ns, b.keys);
    assert Served(s.sched, b.keys[i]);
    WindowInNanos(s.sched.now, b.ns, Interval(kind));
  }

  lemma DropIsRecent(s: System, c: nat)
    requires Inv(s) && c in s.callers && s.callers[c].Sampled? && s.callers[c].kind < HINT_COUNT && TurnsAway(s, c)
    ensures s.callers[c].kind in s.last
    ensures var kind, time := s.callers[c].kind, Micros(s.callers[c].ns);
            Micros(s.last[kind].ns) <= time < Micros(s.last[kind].ns) + Interval(kind)
  {
    var kind, time := s.callers[c].kind, Micros(s.callers[c].ns);
    assert CallerOk(s, s.callers[c]);
    assert kind in s.hintTime;
    ElapsedIsSmall(time, Micros(s.last[kind].ns), Interval(kind));
  }

  /** The boost recorded for a kind: every request of its hint was pushed and none is over
      before the interval is. */
  ghost predicate Covers(s: System, kind: nat)
    requires kind in s.last
  {
    var b := s.last[kind];
    && |b.keys| == |Requests(kind, b.data, s.maxFrequency)|
    && (forall i :: 0 <= i < |b.keys| ==>
          b.keys[i] < |s.sched.sent| && s.sched.sent[b.keys[i]].ev == Requests(kind, b.data, s.maxFrequency)[i])
    && (Micros(s.sched.now) < Micros(b.ns) + Interval(kind) ==>
          forall i :: 0 <= i < |b.keys| ==> Alive(s.sched, b.keys[i]))
  }

  /** Boost coverage.  In every reachable state where a hint of a known kind would be turned
      away, the recorded time belongs to an accepted hint whose interval contains the hint's
      own time, all requests of that accepted hint have been pushed, and as long as the clock
      has not left the interval each of them is still queued or being opened, held open, or
      its node failed to open. */
  lemma DroppedHintIsCovered(s0: System, moves: seq<Move>, c: nat)
    requires Init(s0) && Run(s0, moves).Some?
    requires var s := Run(s0, moves).value;
             c in s.callers && s.callers[c].Sampled? && s.callers[c].kind < HINT_COUNT && TurnsAway(s, c)
    ensures var s := Run(s0, moves).value;
            var kind, time := s.callers[c].kind, Micros(s.callers[c].ns);
            && kind in s.last
            && Micros(s.last[kind].ns) <= time < Micros(s.last[kind].ns) + Interval(kind)
            && Covers(s, kind)
  {
    RunKeeps(s0, moves);
    var s := Run(s0, moves).value;
    DropIsRecent(s, c);
    var kind := s.callers[c].kind;
    var b := s.last[kind];
    assert Pushed(s.sched, kind, b.data, s.maxFrequency, b.ns, b.keys);
    if Micros(s.sched.now) < Micros(b.ns) + Interval(kind) {
      forall i | 0 <= i < |b.keys| ensures Alive(s.sched, b.keys[i]) { BoostIsAlive(s, kind, i); }
    }
  }

  /** The recorded boost has two requests, both alive: a frequency floor at the maximum, and a count
      of online CPUs, two for INTERACTION and four otherwise; for two seconds for LAUNCH and for
      100 milliseconds otherwise. */
  ghost predicate Boosted(s: System, kind: nat)
    requires kind in s.last
  {
    var keys, time := s.last[kind].keys, if kind == 8 then 2000000000 else 100000000;
    && |keys| == 2 && keys[0] < |s.sched.sent| && keys[1] < |s.sched.sent|
    && s.sched.sent[keys[0]].ev == OpenTimed(Plain(CpuFreqMin, s.maxFrequency), time)
    && s.sched.sent[keys[1]].ev == OpenTimed(Plain(MinOnlineCpus, if kind == 2 then 2 else 4), time)
    && Alive(s.sched, keys[0]) && Alive(s.sched, keys[1])
  }

  /** A dropped hint that is decided before the recorded boost's interval is over is covered by
      two live requests, a frequency floor and a count of online CPUs: always for INTERACTION and
      LAUNCH, and for VSYNC exactly when the accepted hint carried data. */
  lemma BoostedExactlyWhen(s0: System, moves: seq<Move>, c: nat)
    requires Init(s0) && Run(s0, moves).Some?
    requires var s := Run(s0, moves).value;
             && c in s.callers && s.callers[c].Sampled? && TurnsAway(s, c)
             && s.callers[c].kind in {VSYNC, INTERACTION, LAUNCH}
    ensures var s := Run(s0, moves).value;
            var kind := s.callers[c].kind;
            && kind in s.last
            && (Micros(s.sched.now) < Micros(s.last[kind].ns) + Interval(kind) ==>
                  (Boosted(s, kind) <==> kind != VSYNC || s.last[kind].data))
  {
    DroppedHintIsCovered(s0, moves, c);
  }

  /** The exception does happen: an accepted VSYNC hint without data boosts nothing and still
      turns away the next one, which has data. */
  lemma VsyncWithoutDataBoostsNothing() returns (s0: System, moves: seq<Move>)
    ensures Init(s0) && Run(s0, moves).Some?
    ensures var s := Run(s0, moves).value;
            && 0 in s.callers && s.callers[0].Sampled? && s.callers[0].kind == VSYNC && s.callers[0].data
            && TurnsAway(s, 0) && s.sched.sent == []
  {
    s0 := System(START, map[], map[0 := Away], 1300000, map[], []);
    var s1 := Then(s0, [], s0, Schedule(Tick(5000)));
    var m1 := [] + [Schedule(Tick(5000))];
    var s2 := Then(s0, m1, s1, Sample(0, VSYNC, false));
    var m2 := m1 + [Sample(0, VSYNC, false)];
    var s3 := Then(s0, m2, s2, Decide(0));
    var m3 := m2 + [Decide(0)];
    var s4 := Then(s0, m3, s3, Commit(0));
    var m4 := m3 + [Commit(0)];
    var s5 := Then(s0, m4, s4, Sample(0, VSYNC, true));
    moves := m4 + [Sample(0, VSYNC, true)];
  }

  /** One more move of a run. */
  lemma Then(s0: System, moves: seq<Move>, s: System, m: Move) returns (s': System)
    requires Run(s0, moves) == Some(s) && Enabled(s, m)
    ensures s' == Apply(s, m) && Run(s0, moves + [m]) == Some(s')
  {
    s' := Apply(s, m);
    assert (moves + [m])[..|moves|] == moves;
  }

  // ---------- reachable states ----------

  /** The states of the system that a run from `s0` leads to. */
  ghost predicate Reachable(s0: System, s: System) {
    exists moves :: Run(s0, moves) == Some(s)
  }

  /** A set of states, such as the reachable ones, that no move leaves. */
  ghost predicate Stable(r: System -> bool) {
    forall s, m :: r(s) && Enabled(s, m) ==> r(Apply(s, m))
  }

  lemma Proceed(r: System -> bool, s: System, m: Move)
    requires Stable(r) && r(s) && Enabled(s, m)
    ensures r(Apply(s, m))
  {
  }

  lemma ReachableIsStable(s0: System)
    ensures Stable(s => Reachable(s0, s)) && Reachable(s0, s0)
  {
    assert Run(s0, []) == Some(s0);
    forall s, m | Reachable(s0, s) && Enabled(s, m) ensures Reachable(s0, Apply(s, m)) {
      var moves :| Run(s0, moves) == Some(s);
      var s' := Then(s0, moves, s, m);
    }
  }

  /** An accepted hint with two requests pushes them and is recorded. */
  lemma Finish(r: System -> bool, s: System, c: nat) returns (s': System)
    requires Stable(r) && r(s) && c in s.callers && s.callers[c].Pushing? && s.callers[c].keys == []
    requires |Requests(s.callers[c].kind, s.callers[c].data, s.maxFrequency)| == 2
    ensures r(s') && s'.maxFrequency == s.maxFrequency && s'.accepted == s.accepted
    ensures var p := s.callers[c];
            var requests := Requests(p.kind, p.data, s.maxFrequency);
            && s'.sched == Send(Send(s.sched, 0, requests[0]), 0, requests[1])
            && s'.callers == s.callers[c := Away] && s'.hintTime == s.hintTime[p.kind := Micros(p.ns)]
            && s'.last == s.last[p.kind := Boost(p.data, p.ns, [s.sched.nextKey, s.sched.nextKey + 1])]
  {
    Proceed(r, s, PushNext(c));
    var s1 := Apply(s, PushNext(c));
    assert s1.callers[c].keys == [s.sched.nextKey];
    Proceed(r, s1, PushNext(c));
    var s2 := Apply(s1, PushNext(c));
    assert s2.callers[c].keys == [s.sched.nextKey, s.sched.nextKey + 1];
    Proceed(r, s2, Commit(c));
    s' := Apply(s2, Commit(c));
  }

  lemma ElapsedIsSmall(time: nat, last: nat, interval: nat)
    requires time < CLOCK_END && last < CLOCK_END && Elapsed(time, last) < interval <= 2000000
    ensures last <= time < last + interval
  {
  }

  lemma WindowInNanos(now: nat, from: nat, interval: nat)
    requires Micros(now) < Micros(from) + interval
    ensures now < from + 1000 * interval
  {
  }
}
