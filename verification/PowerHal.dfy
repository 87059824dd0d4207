/** The power HAL's object: the limiter's tables and the scheduler it pushes to.  Its state is one
    that a run of limiter and scheduler together leads to, so that coverage and spacing hold of
    the object. */
module PowerHal {
  import opened Options
  import S = PokeScheduler
  import P = PokeHandler
  import opened PowerHints
  import opened BoostCoverage
  import opened HintSpacing

  /** The system before the first hint, with one thread giving hints. */
  function Start(maxFrequency: int): System { System(S.START, map[], map[0 := Away], maxFrequency, map[], []) }

  /** A state that the scheduler has passed through. */
  ghost predicate Passed(s: S.State, history: seq<S.Step>) {
    exists n :: 0 <= n <= |history| && S.Run(S.START, history[..n]) == Some(s)
  }

  lemma PassedKeeps(s: S.State, history: seq<S.Step>, longer: seq<S.Step>)
    requires Passed(s, history) && history <= longer
    ensures Passed(s, longer)
  {
    var n :| 0 <= n <= |history| && S.Run(S.START, history[..n]) == Some(s);
    assert longer[..n] == history[..n];
  }

  /** What the scheduler did on its own are moves of the system. */
  lemma {:induction false} CatchUp(r: System -> bool, s: System, history: seq<S.Step>, n: nat)
    requires Stable(r) && r(s) && n <= |history| && S.Run(S.START, history[..n]) == Some(s.sched)
    requires S.Run(S.START, history).Some?
    ensures r(s.(sched := S.Run(S.START, history).value))
    decreases |history|
  {
    if n == |history| {
      assert history[..n] == history && s.(sched := s.sched) == s;
    } else {
      var init, step := history[..|history| - 1], history[|history| - 1];
      assert init[..n] == history[..n];
      CatchUp(r, s, init, n);
      Proceed(r, s.(sched := S.Run(S.START, init).value), Schedule(step));
    }
  }

  /** The scheduler's events sent one after another. */
  function SendAll(s: S.State, events: seq<S.Event>): S.State
    decreases |events|
  {
    if events == [] then s else SendAll(S.Send(s, 0, events[0]), events[1..])
  }

  lemma SendTwo(s: S.State, a: S.Event, b: S.Event)
    ensures SendAll(s, [a, b]) == S.Send(S.Send(s, 0, a), 0, b)
  {
    assert [a, b][1..] == [b] && [b][1..] == [];
    assert SendAll(s, [a, b]) == SendAll(S.Send(s, 0, a), [b]) == SendAll(S.Send(S.Send(s, 0, a), 0, b), []);
  }

  // ---------- one call ----------

  /** The state in which the thread has read the clock. */
  function Asking(s: System, hint: nat, data: bool): System
    requires Enabled(s, Sample(0, hint, data))
  {
    Apply(s, Sample(0, hint, data))
  }

  /** What an accepted hint leaves. */
  ghost predicate Granted(s: System, s': System, hint: nat, data: bool) {
    && s'.sched == SendAll(s.sched, Requests(hint, data, s.maxFrequency))
    && s'.hintTime == s.hintTime[hint := Micros(s.sched.now)]
    && s'.accepted == s.accepted + [Hint(hint, Micros(s.sched.now))]
  }

  /** A call of common_power_hint by the only thread is a run of the system. */
  lemma CallRuns(r: System -> bool, s: System, hint: nat, data: bool) returns (s': System)
    requires Stable(r) && r(s) && s.callers == map[0 := Away] && 0 < Micros(s.sched.now) < CLOCK_END
    ensures r(Asking(s, hint, data))
    ensures r(s') && s'.callers == map[0 := Away] && s'.maxFrequency == s.maxFrequency
    ensures if Accepts(s, hint, Micros(s.sched.now)) then Granted(s, s', hint, data) else s' == s
  {
    Proceed(r, s, Sample(0, hint, data));
    var s1 := Asking(s, hint, data);
    Proceed(r, s1, Decide(0));
    var s2 := Apply(s1, Decide(0));
    if Accepts(s, hint, Micros(s.sched.now)) {
      s' := GrantRuns(r, s, s2, hint, data);
    } else {
      assert s2.callers == s.callers;
      s' := s2;
    }
  }

  lemma GrantRuns(r: System -> bool, s: System, s2: System, hint: nat, data: bool) returns (s': System)
    requires Stable(r) && r(s2) && s.callers == map[0 := Away]
    requires s2 == s.(callers := map[0 := Pushing(hint, data, s.sched.now, [])],
                      accepted := s.accepted + [Hint(hint, Micros(s.sched.now))])
    ensures r(s') && s'.callers == map[0 := Away] && s'.maxFrequency == s.maxFrequency && Granted(s, s', hint, data)
  {
    var requests := Requests(hint, data, s.maxFrequency);
    if requests == [] {
      Proceed(r, s2, Commit(0));
      s' := Apply(s2, Commit(0));
    } else {
      s' := Finish(r, s2, 0);
      assert requests == [requests[0], requests[1]];
      SendTwo(s.sched, requests[0], requests[1]);
    }
  }

  /** A hint of a known kind that is turned away as soon as it has read the clock is covered by a
      boost all of whose requests are alive. */
  ghost predicate Covered(s: System, hint: nat) {
    && hint in s.last
    && Micros(s.last[hint].ns) <= Micros(s.sched.now) < Micros(s.last[hint].ns) + Interval(hint)
    && |s.last[hint].keys| == |Requests(hint, s.last[hint].data, s.maxFrequency)|
    && forall i :: 0 <= i < |s.last[hint].keys| ==>
         s.last[hint].keys[i] < |s.sched.sent| && S.Alive(s.sched, s.last[hint].keys[i])
  }

  lemma DroppedIsCovered(s0: System, s: System, hint: nat, data: bool)
    requires Init(s0) && s.callers == map[0 := Away] && 0 < Micros(s.sched.now) < CLOCK_END
    requires Reachable(s0, Asking(s, hint, data)) && hint < HINT_COUNT && !Accepts(s, hint, Micros(s.sched.now))
    ensures Covered(s, hint) && (Boosted(s, hint) <==> hint != 1 || s.last[hint].data)
  {
    var s1 := Asking(s, hint, data);
    var moves :| Run(s0, moves) == Some(s1);
    CoveredNow(s0, moves, s1, hint);
    SameBoost(s, s1, hint);
  }

  lemma CoveredNow(s0: System, moves: seq<Move>, s: System, hint: nat)
    requires Init(s0) && Run(s0, moves) == Some(s) && 0 in s.callers && s.callers[0].Sampled?
    requires s.callers[0].kind == hint < HINT_COUNT && s.callers[0].ns == s.sched.now && TurnsAway(s, 0)
    ensures Covered(s, hint) && (Boosted(s, hint) <==> hint != 1 || s.last[hint].data)
  {
    DroppedHintIsCovered(s0, moves, 0);
    BoostedExactlyWhen(s0, moves, 0);
  }

  /** Coverage looks at the scheduler and the record only. */
  lemma SameBoost(s: System, t: System, hint: nat)
    requires s.sched == t.sched && s.last == t.last && s.maxFrequency == t.maxFrequency && hint in s.last
    ensures Covered(s, hint) <==> Covered(t, hint)
    ensures Boosted(s, hint) <==> Boosted(t, hint)
  {
  }

  /** The clock is never behind the record here, so the unsigned test is the plain one. */
  lemma PassesAfterPause(s0: System, s: System, hint: nat)
    requires Init(s0) && Reachable(s0, s) && hint < 12 && Micros(s.sched.now) < CLOCK_END
    ensures Accepts(s, hint, Micros(s.sched.now)) <==>
            || Recorded(s, hint) == 0
            || Micros(s.sched.now) - Recorded(s, hint) >=
               if hint == 1 || hint == 2 then 100000 else if hint == 8 then 2000000 else 0
  {
    var moves :| Run(s0, moves) == Some(s);
    RunKeepsClocks(s0, moves);
    PlainTest(Recorded(s, hint), hint, Micros(s.sched.now));
  }

  lemma PlainTest(last: nat, hint: nat, time: nat)
    requires last <= time < CLOCK_END
    ensures !Drops(last, hint, time) <==>
            last == 0 || time - last >= if hint == 1 || hint == 2 then 100000 else if hint == 8 then 2000000 else 0
  {
    if last != 0 && Interval(hint) != 0 { AcceptsOutside(last, hint, time); }
  }

  // ---------- the object ----------

  class PowerHal {
    const maxFrequency: int
    const poker: P.PokeHandler
    const hintTime: array<nat>
    const hintInterval: array<nat>
    ghost var calls: seq<Hint>
    ghost var system: System

    ghost predicate Valid()
      reads this, hintTime, hintInterval, poker
    {
      && hintTime.Length == HINT_COUNT && hintInterval.Length == HINT_COUNT && hintTime != hintInterval
      && (forall h :: 0 <= h < HINT_COUNT ==> hintInterval[h] == Interval(h) && hintTime[h] == LastTime(calls, h))
      && (forall h :: 0 <= h < HINT_COUNT ==> hintTime[h] == Recorded(system, h))
      && Reachable(Start(maxFrequency), system) && Passed(system.sched, poker.history)
      && system.callers == map[0 := Away] && system.maxFrequency == maxFrequency
    }

    constructor (maxFrequency: int, poker: P.PokeHandler)
      ensures Valid() && calls == [] && system == Start(maxFrequency)
      ensures this.poker == poker && this.maxFrequency == maxFrequency
      ensures fresh(hintTime) && fresh(hintInterval)
      ensures forall h :: 0 <= h < 12 ==>
                && hintTime[h] == 0
                && hintInterval[h] == if h == 1 || h == 2 then 100000 else if h == 8 then 2000000 else 0
    {
      this.maxFrequency, this.poker := maxFrequency, poker;
      hintTime := new nat[HINT_COUNT](_ => 0);
      hintInterval := new nat[HINT_COUNT](_ => 0);
      calls, system := [], Start(maxFrequency);
      new;
      hintInterval[VSYNC] := 100000;
      hintInterval[INTERACTION] := 100000;
      hintInterval[LAUNCH] := 2000000;
      ReachableIsStable(system);
      assert S.Run(S.START, poker.history[..0]) == Some(S.START);
    }

    /** check_hint, for the clock as it is now. */
    method CheckHint(hint: nat) returns (ok: bool, time: nat)
      requires Valid()
      ensures time == Micros(poker.now) == poker.now / 1000
      ensures ok <==> hint < HINT_COUNT && !Drops(LastTime(calls, hint), hint, time)
      ensures ok <==> Accepts(system, hint, time)
    {
      time := poker.now / 1000;
      if hint >= HINT_COUNT {
        return false, time;
      }
      if hintTime[hint] != 0 && hintInterval[hint] != 0 && Elapsed(time, hintTime[hint]) < hintInterval[hint] {
        return false, time;
      }
      return true, time;
    }

    /** The system catches up with what the scheduler has done meanwhile. */
    ghost method Follow()
      requires Valid() && poker.Valid()
      modifies this`system
      ensures Valid() && system == old(system).(sched := poker.View())
    {
      ReachableIsStable(Start(maxFrequency));
      var n :| 0 <= n <= |poker.history| && S.Run(S.START, poker.history[..n]) == Some(system.sched);
      CatchUp(s => Reachable(Start(maxFrequency), s), system, poker.history, n);
      system := system.(sched := poker.View());
      assert poker.history[..|poker.history|] == poker.history;
    }

    /** common_power_hint: a hint that passes pushes its requests and records its time; one that is
        turned away changes nothing and, if its kind is known, is covered by a live boost.  The
        hints are told apart by number: 1 is VSYNC, 2 is INTERACTION and 8 is LAUNCH. */
    method CommonPowerHint(hint: nat, data: bool) returns (ghost passes: bool)
      requires Valid() && poker.Valid() && 0 < Micros(poker.now) < CLOCK_END
      modifies this`calls, this`system, hintTime, poker
      ensures Valid() && poker.Valid() && poker.now == old(poker.now)
      ensures calls == old(calls) + [Hint(hint, poker.now / 1000)]
      ensures passes <==>
              hint < 12 && (|| old(hintTime[hint]) == 0
                            || poker.now / 1000 - old(hintTime[hint]) >=
                               if hint == 1 || hint == 2 then 100000 else if hint == 8 then 2000000 else 0)
      // What is recorded.
      ensures forall h :: 0 <= h < 12 && (!passes || h != hint) ==> hintTime[h] == old(hintTime[h])
      ensures passes ==> hintTime[hint] == poker.now / 1000
      ensures system.accepted == old(system.accepted) + if passes then [Hint(hint, poker.now / 1000)] else []
      // What is asked of the scheduler.
      ensures old(poker.sent) <= poker.sent
      ensures |poker.sent| == |old(poker.sent)| +
                              if passes && (hint == 2 || hint == 8 || (hint == 1 && data)) then 2 else 0
      ensures |poker.sent| > |old(poker.sent)| ==>
                var n, time := |old(poker.sent)|, if hint == 8 then 2000000000 else 100000000;
                && poker.sent[n].ev == S.OpenTimed(S.Plain(S.CpuFreqMin, maxFrequency), time)
                && poker.sent[n + 1].ev == S.OpenTimed(S.Plain(S.MinOnlineCpus, if hint == 2 then 2 else 4), time)
      ensures poker.View() == SendAll(old(poker.View()), if passes then Requests(hint, data, maxFrequency) else [])
      // What a hint that is turned away can rely on.
      ensures system.sched == poker.View()
      ensures !passes && hint < 12 ==>
                Covered(system, hint) && (Boosted(system, hint) <==> hint != 1 || system.last[hint].data)
    {
      var ok, time := CheckHint(hint);
      passes := ok;
      Account(hint, data, time, ok);
      if ok {
        Push(hint, data);
        hintTime[hint] := time;
      }
      assert poker.history[..|poker.history|] == poker.history;
    }

    /** The call as a run of the system, up to its requests and its record. */
    ghost method Account(hint: nat, data: bool, time: nat, ok: bool)
      requires Valid() && poker.Valid() && 0 < Micros(poker.now) < CLOCK_END && time == Micros(poker.now)
      requires ok <==> Accepts(system, hint, time)
      requires ok <==> hint < HINT_COUNT && !Drops(LastTime(calls, hint), hint, time)
      modifies this`calls, this`system
      ensures ok <==> hint < 12 && (|| hintTime[hint] == 0
                                    || time - hintTime[hint] >=
                                       if hint == 1 || hint == 2 then 100000 else if hint == 8 then 2000000 else 0)
      ensures Reachable(Start(maxFrequency), system) && system.callers == map[0 := Away]
      ensures system.maxFrequency == maxFrequency
      ensures calls == old(calls) + [Hint(hint, time)]
      ensures forall h :: 0 <= h < HINT_COUNT ==>
                LastTime(calls, h) == Recorded(system, h) == if ok && h == hint then time else hintTime[h]
      ensures system.accepted == old(system.accepted) + if ok then [Hint(hint, time)] else []
      ensures system.sched == SendAll(poker.View(), if ok then Requests(hint, data, maxFrequency) else [])
      ensures !ok && hint < 12 ==>
                Covered(system, hint) && (Boosted(system, hint) <==> hint != 1 || system.last[hint].data)
    {
      Follow();
      var before := system;
      ReachableIsStable(Start(maxFrequency));
      if hint < 12 { PassesAfterPause(Start(maxFrequency), before, hint); }
      var after := CallRuns(s => Reachable(Start(maxFrequency), s), before, hint, data);
      if !ok && hint < 12 { DroppedIsCovered(Start(maxFrequency), before, hint, data); }
      LastTimeSnoc(calls, Hint(hint, time));
      calls := calls + [Hint(hint, time)];
      system := after;
    }

    /** The requests of an accepted hint. */
    method Push(hint: nat, data: bool)
      requires poker.Valid()
      modifies poker
      ensures poker.Valid() && poker.View() == SendAll(old(poker.View()), Requests(hint, data, maxFrequency))
      ensures poker.now == old(poker.now) && old(poker.sent) <= poker.sent
      ensures |poker.sent| == |old(poker.sent)| + if hint == 2 || hint == 8 || (hint == 1 && data) then 2 else 0
      ensures |poker.sent| > |old(poker.sent)| ==>
                var n, time := |old(poker.sent)|, if hint == 8 then 2000000000 else 100000000;
                && poker.sent[n].ev == S.OpenTimed(S.Plain(S.CpuFreqMin, maxFrequency), time)
                && poker.sent[n + 1].ev == S.OpenTimed(S.Plain(S.MinOnlineCpus, if hint == 2 then 2 else 4), time)
    {
      if hint == VSYNC {
        if data {
          PushBoost(4, 100000000);
        }
      } else if hint == INTERACTION {
        PushBoost(2, 100000000);
      } else if hint == LAUNCH {
        PushBoost(4, 2000000000);
      }
    }

    /** The pair of requests that every boost makes. */
    method PushBoost(cpus: int, timeout: nat)
      requires poker.Valid()
      modifies poker
      ensures poker.Valid() && poker.now == old(poker.now)
      ensures var frequency := S.OpenTimed(S.Plain(S.CpuFreqMin, maxFrequency), timeout);
              var online := S.OpenTimed(S.Plain(S.MinOnlineCpus, cpus), timeout);
              && poker.View() == SendAll(old(poker.View()), [frequency, online])
              && poker.sent == old(poker.sent) +
                               [S.Sent(frequency, poker.now, poker.now), S.Sent(online, poker.now, poker.now)]
    {
      var frequency := S.OpenTimed(S.Plain(S.CpuFreqMin, maxFrequency), timeout);
      var online := S.OpenTimed(S.Plain(S.MinOnlineCpus, cpus), timeout);
      SendTwo(poker.View(), frequency, online);
      poker.PushEvent(frequency);
      poker.PushEvent(online);
    }
  }

  // ---------- what holds of every such object ----------

  lemma {:induction false} OneCallerIsSerial(s0: System, moves: seq<Move>, kind: nat)
    requires s0.callers.Keys == {0} && Run(s0, moves).Some?
    ensures Run(s0, moves).value.callers.Keys == {0} && Serial(s0, moves, kind)
  {
    if moves != [] { OneCallerIsSerial(s0, moves[..|moves| - 1], kind); }
  }

  /** Whatever the scheduler did between the calls, the accepted hints of a kind with an interval
      are pairwise at least the interval apart. */
  lemma HalHintsAreSpaced(hal: PowerHal, kind: nat)
    requires hal.Valid() && Interval(kind) != 0
    ensures Spaced(hal.system.accepted, kind)
  {
    var s0 := Start(hal.maxFrequency);
    var moves :| Run(s0, moves) == Some(hal.system);
    OneCallerIsSerial(s0, moves, kind);
    SerialHintsAreSpaced(s0, moves, kind);
  }

  /** The object stays valid while its scheduler goes on by itself. */
  twostate lemma SchedulerKeepsHal(hal: PowerHal)
    requires old(hal.Valid()) && old(hal.poker.history) <= hal.poker.history
    requires unchanged(hal, hal.hintTime, hal.hintInterval)
    ensures hal.Valid()
  {
    PassedKeeps(hal.system.sched, old(hal.poker.history), hal.poker.history);
  }
}
