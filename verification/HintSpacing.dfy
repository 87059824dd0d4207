/** How far apart accepted hints of one kind are, over every interleaving of threads.
    common_power_hint takes no lock, so the recorded time a hint is compared with may be stale,
    or later than the hint's own reading of the clock.  This module says exactly when that
    breaks the spacing that the interval is for. */
module HintSpacing {
  import opened Options
  import PokeScheduler
  import opened PowerHints
  import opened BoostCoverage

  // ---------- the decision ----------

  /** Whether a hint of this kind that read this time would be accepted now. */
  predicate Accepts(s: System, kind: nat, time: nat) {
    kind < HINT_COUNT && !Drops(Recorded(s, kind), kind, time)
  }

  /** The unsigned comparison: a reading before the recorded time passes as well as one that is
      an interval after it. */
  lemma AcceptsOutside(last: nat, kind: nat, time: nat)
    requires 0 < last < CLOCK_END && Interval(kind) != 0 && time < TWO_64
    ensures !Drops(last, kind, time) <==> time < last || time >= last + Interval(kind)
  {
    if time < last {
      assert Elapsed(time, last) == time - last + TWO_64;
    } else {
      assert Elapsed(time, last) == time - last;
    }
  }

  /** The decision, exactly, in every reachable state: a hint of a known kind is accepted if and only
      if its kind has no interval, or none is recorded yet, or it read the clock before the recorded
      time or at least the interval after it.  So an accepted hint comes an interval after the
      recorded one exactly if it did not read the clock before it. */
  lemma AcceptedExactlyWhen(s0: System, moves: seq<Move>, c: nat)
    requires Init(s0) && Run(s0, moves).Some?
    requires var s := Run(s0, moves).value;
             c in s.callers && s.callers[c].Sampled? && s.callers[c].kind < HINT_COUNT
    ensures var s := Run(s0, moves).value;
            var kind, time := s.callers[c].kind, Micros(s.callers[c].ns);
            var last, interval := Recorded(s, kind), Interval(kind);
            && (!TurnsAway(s, c) <==> interval == 0 || last == 0 || time < last || time >= last + interval)
            && (!TurnsAway(s, c) && interval != 0 && last != 0 ==> (time - last >= interval <==> last <= time))
  {
    RunKeepsClocks(s0, moves);
    var s := Run(s0, moves).value;
    var kind := s.callers[c].kind;
    if Interval(kind) != 0 && Recorded(s, kind) != 0 {
      AcceptsOutside(Recorded(s, kind), kind, Micros(s.callers[c].ns));
    }
  }

  // ---------- the accepted hints ----------

  /** The latest time of an accepted hint of this kind, zero if there is none. */
  function Latest(hints: seq<Hint>, kind: nat): nat {
    if hints == [] then 0
    else
      var before, h := Latest(hints[..|hints| - 1], kind), hints[|hints| - 1];
      if h.kind == kind && h.at > before then h.at else before
  }

  lemma LatestSnoc(hints: seq<Hint>, h: Hint, kind: nat)
    ensures Latest(hints + [h], kind) ==
            if h.kind == kind && h.at > Latest(hints, kind) then h.at else Latest(hints, kind)
  {
    assert (hints + [h])[..|hints|] == hints;
  }

  lemma {:induction false} LatestIsBound(hints: seq<Hint>, kind: nat, i: nat)
    requires i < |hints| && hints[i].kind == kind
    ensures hints[i].at <= Latest(hints, kind)
  {
    if i < |hints| - 1 { LatestIsBound(hints[..|hints| - 1], kind, i); }
  }

  lemma {:induction false} LatestIsReached(hints: seq<Hint>, kind: nat) returns (i: nat)
    requires Latest(hints, kind) != 0
    ensures i < |hints| && hints[i] == Hint(kind, Latest(hints, kind))
  {
    i := |hints| - 1;
    if hints[i] != Hint(kind, Latest(hints, kind)) { i := LatestIsReached(hints[..|hints| - 1], kind); }
  }

  /** Every recorded time and every accepted hint still being pushed is among the accepted
      hints, none of which lies in the future. */
  ghost predicate HintsOk(s: System, kind: nat) {
    && Recorded(s, kind) <= Latest(s.accepted, kind) <= Micros(s.sched.now)
    && Latest(s.accepted, kind) < CLOCK_END
    && forall c :: c in s.callers && s.callers[c].Pushing? && s.callers[c].kind == kind ==>
         Micros(s.callers[c].ns) <= Latest(s.accepted, kind)
  }

  /** Every clock reading is positive and in the past. */
  ghost predicate ClocksOk(s: System) {
    && (forall c :: c in s.callers && !s.callers[c].Away? ==>
          s.callers[c].ns <= s.sched.now && 0 < Micros(s.callers[c].ns) < CLOCK_END)
    && (forall kind :: kind in s.hintTime ==>
          0 < s.hintTime[kind] < CLOCK_END && s.hintTime[kind] <= Micros(s.sched.now))
  }

  lemma RunKeepsClocks(s0: System, moves: seq<Move>)
    requires Init(s0) && Run(s0, moves).Some?
    ensures ClocksOk(Run(s0, moves).value)
  {
    RunKeeps(s0, moves);
    var s := Run(s0, moves).value;
    forall c | c in s.callers && !s.callers[c].Away?
      ensures s.callers[c].ns <= s.sched.now && 0 < Micros(s.callers[c].ns) < CLOCK_END
    {
      assert CallerOk(s, s.callers[c]);
    }
  }

  lemma TimeKeepsHints(s: System, sched: PokeScheduler.State, kind: nat)
    requires HintsOk(s, kind) && s.sched.now <= sched.now
    ensures HintsOk(s.(sched := sched), kind)
  {
    var s' := s.(sched := sched);
    assert s'.callers == s.callers && Micros(s.sched.now) <= Micros(sched.now);
  }

  lemma AcceptKeepsHints(s: System, s': System, c: nat, p: Caller, kind: nat)
    requires ClocksOk(s) && HintsOk(s, kind) && c in s.callers && s.callers[c].Sampled?
    requires p.Pushing? && p.ns == s.callers[c].ns && p.kind == s.callers[c].kind
    requires s' == s.(callers := s.callers[c := p], accepted := s.accepted + [Hint(p.kind, Micros(p.ns))])
    ensures HintsOk(s', kind)
  {
    var time := Micros(s.callers[c].ns);
    assert time <= Micros(s.sched.now);
    LatestSnoc(s.accepted, Hint(s.callers[c].kind, time), kind);
    assert Latest(s.accepted, kind) <= Latest(s'.accepted, kind) <= Micros(s.sched.now);
    forall d | d in s'.callers && s'.callers[d].Pushing? && s'.callers[d].kind == kind
      ensures Micros(s'.callers[d].ns) <= Latest(s'.accepted, kind)
    {
      if d != c { assert s'.callers[d] == s.callers[d]; }
    }
  }

  lemma DecideKeepsHints(s: System, c: nat, kind: nat)
    requires ClocksOk(s) && HintsOk(s, kind) && Enabled(s, Decide(c))
    ensures HintsOk(Apply(s, Decide(c)), kind)
  {
    if !TurnsAway(s, c) { AcceptKeepsHints(s, Apply(s, Decide(c)), c, Apply(s, Decide(c)).callers[c], kind); }
  }

  lemma CommitKeepsHints(s: System, c: nat, kind: nat)
    requires ClocksOk(s) && HintsOk(s, kind) && Enabled(s, Commit(c))
    ensures HintsOk(Apply(s, Commit(c)), kind)
  {
  }

  lemma PushKeepsHints(s: System, c: nat, kind: nat)
    requires HintsOk(s, kind) && Enabled(s, PushNext(c))
    ensures HintsOk(Apply(s, PushNext(c)), kind)
  {
  }

  lemma MoveKeepsHints(s: System, m: Move, kind: nat)
    requires ClocksOk(s) && HintsOk(s, kind) && Enabled(s, m)
    ensures HintsOk(Apply(s, m), kind)
  {
    match m
    case Schedule(step) => StepIsLater(s.sched, step); TimeKeepsHints(s, PokeScheduler.Apply(s.sched, step), kind);
    case Sample(_, _, _) =>
    case Decide(c) => DecideKeepsHints(s, c, kind);
    case PushNext(c) => PushKeepsHints(s, c, kind);
    case Commit(c) => CommitKeepsHints(s, c, kind);
  }

  lemma {:induction false} RunKeepsHints(s0: System, moves: seq<Move>, kind: nat)
    requires Init(s0) && Run(s0, moves).Some?
    ensures ClocksOk(Run(s0, moves).value) && HintsOk(Run(s0, moves).value, kind)
  {
    RunKeepsClocks(s0, moves);
    if moves != [] {
      RunKeepsHints(s0, moves[..|moves| - 1], kind);
      MoveKeepsHints(Run(s0, moves[..|moves| - 1]).value, moves[|moves| - 1], kind);
    }
  }

  // ---------- hints that have not read the clock yet ----------

  /** Every hint that reads the clock from now on and is decided on the present record comes an
      interval after every accepted one. */
  ghost predicate SafeFromNowOn(s: System, kind: nat) {
    forall time: nat :: Micros(s.sched.now) <= time < TWO_64 && Accepts(s, kind, time) ==>
      time >= Latest(s.accepted, kind) + Interval(kind)
  }

  /** In every reachable state with an accepted hint, future hints are safe exactly if the latest
      accepted hint is the one recorded, or its interval is over already. */
  lemma SafeExactlyWhen(s0: System, moves: seq<Move>, kind: nat)
    requires Init(s0) && Run(s0, moves).Some? && Interval(kind) != 0 && Latest(Run(s0, moves).value.accepted, kind) != 0
    ensures var s := Run(s0, moves).value;
            var latest := Latest(s.accepted, kind);
            SafeFromNowOn(s, kind) <==> Recorded(s, kind) == latest || Micros(s.sched.now) >= latest + Interval(kind)
  {
    RunKeepsHints(s0, moves, kind);
    var s := Run(s0, moves).value;
    var latest, last, now := Latest(s.accepted, kind), Recorded(s, kind), Micros(s.sched.now);
    if last == latest {
      forall time: nat | now <= time < TWO_64 && Accepts(s, kind, time) ensures time >= latest + Interval(kind) {
        AcceptsOutside(last, kind, time);
      }
    } else if now < latest + Interval(kind) {
      // A reading that the stale record lets through although the latest hint is too near.
      var time := if last != 0 && last + Interval(kind) > now then last + Interval(kind) else now;
      if last != 0 { AcceptsOutside(last, kind, time); }
      assert Accepts(s, kind, time) && time < latest + Interval(kind);
    }
  }

  // ---------- whole runs ----------

  /** Accepted hints of the kind come at least the interval apart, each after the former. */
  ghost predicate Spaced(hints: seq<Hint>, kind: nat) {
    forall i, j :: 0 <= i < j < |hints| && hints[i].kind == hints[j].kind == kind ==>
      hints[j].at - hints[i].at >= Interval(kind)
  }

  /** The move accepts a hint of this kind. */
  predicate Accepting(s: System, m: Move, kind: nat) {
    m.Decide? && m.c in s.callers && s.callers[m.c].Sampled? && s.callers[m.c].kind == kind && !TurnsAway(s, m.c)
  }

  /** A decision in turn: the hint did not read the clock before the recorded time, and the
      record is the latest accepted hint unless that one's interval is over. */
  predicate OnTurn(s: System, c: nat)
    requires c in s.callers && s.callers[c].Sampled?
  {
    var kind, time := s.callers[c].kind, Micros(s.callers[c].ns);
    && Recorded(s, kind) <= time
    && (Recorded(s, kind) == Latest(s.accepted, kind) || Latest(s.accepted, kind) + Interval(kind) <= time)
  }

  /** Every hint of the kind that the run accepts is decided in turn. */
  ghost predicate InTurn(s0: System, moves: seq<Move>, kind: nat)
    requires Run(s0, moves).Some?
  {
    moves != [] ==>
      var init, m := moves[..|moves| - 1], moves[|moves| - 1];
      InTurn(s0, init, kind) && (Accepting(Run(s0, init).value, m, kind) ==> OnTurn(Run(s0, init).value, m.c))
  }

  lemma SpacedSnoc(hints: seq<Hint>, h: Hint, kind: nat)
    ensures Spaced(hints + [h], kind) <==>
            Spaced(hints, kind) && (h.kind == kind ==>
              forall i :: 0 <= i < |hints| && hints[i].kind == kind ==> h.at - hints[i].at >= Interval(kind))
  {
    var all := hints + [h];
    assert forall i :: 0 <= i < |hints| ==> all[i] == hints[i];
    if Spaced(all, kind) {
      forall i, j | 0 <= i < j < |hints| && hints[i].kind == hints[j].kind == kind
        ensures hints[j].at - hints[i].at >= Interval(kind)
      {
        assert all[i] == hints[i] && all[j] == hints[j];
      }
      if h.kind == kind {
        forall i | 0 <= i < |hints| && hints[i].kind == kind ensures h.at - hints[i].at >= Interval(kind) {
          assert all[i] == hints[i] && all[|hints|] == h;
        }
      }
    }
  }

  /** Far from every accepted hint means far from the latest. */
  lemma FarFromLatest(hints: seq<Hint>, kind: nat, time: nat)
    ensures (forall i :: 0 <= i < |hints| && hints[i].kind == kind ==> time - hints[i].at >= Interval(kind))
            <== Latest(hints, kind) + Interval(kind) <= time
    ensures (forall i :: 0 <= i < |hints| && hints[i].kind == kind ==> time - hints[i].at >= Interval(kind))
            ==> Latest(hints, kind) == 0 || Latest(hints, kind) + Interval(kind) <= time
  {
    forall i | 0 <= i < |hints| && hints[i].kind == kind ensures hints[i].at <= Latest(hints, kind) {
      LatestIsBound(hints, kind, i);
    }
    if Latest(hints, kind) != 0 { var i := LatestIsReached(hints, kind); }
  }

  lemma NoneAccepted(hints: seq<Hint>, kind: nat, i: nat)
    requires i < |hints| && hints[i].kind == kind && hints[i].at > 0
    ensures Latest(hints, kind) != 0
  {
    LatestIsBound(hints, kind, i);
  }

  ghost predicate Positive(hints: seq<Hint>) { forall i :: 0 <= i < |hints| ==> hints[i].at > 0 }

  /** An accepted hint is far from every accepted one before it exactly if it is in turn. */
  lemma OnTurnIsFar(s: System, c: nat)
    requires ClocksOk(s) && c in s.callers && s.callers[c].Sampled? && Interval(s.callers[c].kind) != 0
    requires HintsOk(s, s.callers[c].kind) && Positive(s.accepted) && !TurnsAway(s, c)
    ensures var kind, time := s.callers[c].kind, Micros(s.callers[c].ns);
            OnTurn(s, c) <==>
              forall i :: 0 <= i < |s.accepted| && s.accepted[i].kind == kind ==>
                time - s.accepted[i].at >= Interval(kind)
  {
    var kind, time := s.callers[c].kind, Micros(s.callers[c].ns);
    FarFromLatest(s.accepted, kind, time);
    if Recorded(s, kind) != 0 {
      AcceptsOutside(Recorded(s, kind), kind, time);
    } else if Latest(s.accepted, kind) == 0 {
      forall i | 0 <= i < |s.accepted| ensures s.accepted[i].kind != kind {
        if s.accepted[i].kind == kind { NoneAccepted(s.accepted, kind, i); }
      }
    }
  }

  lemma {:induction false} AcceptedArePositive(s0: System, moves: seq<Move>)
    requires Init(s0) && Run(s0, moves).Some?
    ensures Positive(Run(s0, moves).value.accepted)
  {
    if moves != [] {
      AcceptedArePositive(s0, moves[..|moves| - 1]);
      RunKeepsClocks(s0, moves[..|moves| - 1]);
    }
  }

  /** Spacing, exactly: over every run of any number of threads, the accepted hints of a kind are
      pairwise at least the interval apart if and only if each was decided in turn. */
  lemma {:induction false} SpacedExactlyWhen(s0: System, moves: seq<Move>, kind: nat)
    requires Init(s0) && Run(s0, moves).Some? && Interval(kind) != 0
    ensures Spaced(Run(s0, moves).value.accepted, kind) <==> InTurn(s0, moves, kind)
  {
    if moves != [] {
      var init, m := moves[..|moves| - 1], moves[|moves| - 1];
      var s := Run(s0, init).value;
      SpacedExactlyWhen(s0, init, kind);
      if m.Decide? && !TurnsAway(s, m.c) {
        var h := Hint(s.callers[m.c].kind, Micros(s.callers[m.c].ns));
        SpacedSnoc(s.accepted, h, kind);
        if h.kind == kind {
          RunKeepsHints(s0, init, kind);
          AcceptedArePositive(s0, init);
          OnTurnIsFar(s, m.c);
        }
      }
    }
  }

  // ---------- orderings that keep hints in turn ----------

  /** No thread is between the acceptance of a hint of this kind and its record. */
  ghost predicate NonePushing(s: System, kind: nat) {
    forall d :: d in s.callers && s.callers[d].Pushing? ==> s.callers[d].kind != kind
  }

  /** Each hint of the kind is accepted only when every earlier one has been recorded, and with a
      clock reading not before the record.  Hints that are turned away may overlap freely. */
  ghost predicate Ordered(s0: System, moves: seq<Move>, kind: nat)
    requires Run(s0, moves).Some?
  {
    moves != [] ==>
      var init, m := moves[..|moves| - 1], moves[|moves| - 1];
      var s := Run(s0, init).value;
      && Ordered(s0, init, kind)
      && (Accepting(s, m, kind) ==> NonePushing(s, kind) && Recorded(s, kind) <= Micros(s.callers[m.c].ns))
  }

  /** In an ordered run the latest accepted hint is recorded or being pushed. */
  ghost predicate LatestIsKnown(s: System, kind: nat) {
    && (forall d :: d in s.callers && s.callers[d].Pushing? && s.callers[d].kind == kind ==>
          Micros(s.callers[d].ns) == Latest(s.accepted, kind))
    && (NonePushing(s, kind) ==> Recorded(s, kind) == Latest(s.accepted, kind))
  }

  lemma LatestFrame(s: System, s': System, kind: nat)
    requires LatestIsKnown(s, kind) && s'.callers == s.callers && s'.accepted == s.accepted && s'.hintTime == s.hintTime
    ensures LatestIsKnown(s', kind)
  {
    assert NonePushing(s', kind) ==> NonePushing(s, kind);
  }

  /** A thread that is not pushing a hint of this kind moves to where it is not either. */
  lemma NobodyElse(s: System, s': System, c: nat, kind: nat)
    requires LatestIsKnown(s, kind) && c in s.callers && c in s'.callers && s'.callers == s.callers[c := s'.callers[c]]
    requires s.callers[c].Pushing? ==> s.callers[c].kind != kind
    requires s'.callers[c].Pushing? ==> s'.callers[c].kind != kind
    requires Latest(s'.accepted, kind) == Latest(s.accepted, kind) && Recorded(s', kind) == Recorded(s, kind)
    ensures LatestIsKnown(s', kind)
  {
    if NonePushing(s', kind) {
      forall d | d in s.callers && s.callers[d].Pushing? ensures s.callers[d].kind != kind {
        if d != c { assert s'.callers[d] == s.callers[d]; }
      }
    }
  }

  lemma DecideKeepsLatest(s: System, c: nat, kind: nat)
    requires LatestIsKnown(s, kind) && Enabled(s, Decide(c))
    requires Accepting(s, Decide(c), kind) ==> NonePushing(s, kind) && Recorded(s, kind) <= Micros(s.callers[c].ns)
    ensures LatestIsKnown(Apply(s, Decide(c)), kind)
  {
    var s' := Apply(s, Decide(c));
    LatestSnoc(s.accepted, Hint(s.callers[c].kind, Micros(s.callers[c].ns)), kind);
    if Accepting(s, Decide(c), kind) {
      assert s'.callers[c].Pushing? && s'.callers[c].kind == kind;
    } else {
      NobodyElse(s, s', c, kind);
    }
  }

  lemma PushKeepsLatest(s: System, c: nat, kind: nat)
    requires LatestIsKnown(s, kind) && Enabled(s, PushNext(c))
    ensures LatestIsKnown(Apply(s, PushNext(c)), kind)
  {
    var s' := Apply(s, PushNext(c));
    if s.callers[c].kind == kind {
      assert s'.callers[c].Pushing? && s'.callers[c].kind == kind;
    } else {
      NobodyElse(s, s', c, kind);
    }
  }

  lemma CommitKeepsLatest(s: System, c: nat, kind: nat)
    requires LatestIsKnown(s, kind) && Enabled(s, Commit(c))
    ensures LatestIsKnown(Apply(s, Commit(c)), kind)
  {
    if s.callers[c].kind != kind { NobodyElse(s, Apply(s, Commit(c)), c, kind); }
  }

  lemma MoveKeepsLatest(s: System, m: Move, kind: nat)
    requires LatestIsKnown(s, kind) && Enabled(s, m)
    requires Accepting(s, m, kind) ==> NonePushing(s, kind) && Recorded(s, kind) <= Micros(s.callers[m.c].ns)
    ensures LatestIsKnown(Apply(s, m), kind)
  {
    match m
    case Schedule(_) => LatestFrame(s, Apply(s, m), kind);
    case Sample(c, _, _) => assert !s.callers[c].Pushing?; NobodyElse(s, Apply(s, m), c, kind);
    case Decide(c) => DecideKeepsLatest(s, c, kind);
    case PushNext(c) => PushKeepsLatest(s, c, kind);
    case Commit(c) => CommitKeepsLatest(s, c, kind);
  }

  /** Spacing for callers that keep the order. */
  lemma {:induction false} OrderedHintsAreSpaced(s0: System, moves: seq<Move>, kind: nat)
    requires Init(s0) && Run(s0, moves).Some? && Interval(kind) != 0 && Ordered(s0, moves, kind)
    ensures InTurn(s0, moves, kind) && LatestIsKnown(Run(s0, moves).value, kind)
    ensures Spaced(Run(s0, moves).value.accepted, kind)
  {
    if moves != [] {
      OrderedHintsAreSpaced(s0, moves[..|moves| - 1], kind);
      MoveKeepsLatest(Run(s0, moves[..|moves| - 1]).value, moves[|moves| - 1], kind);
    }
    SpacedExactlyWhen(s0, moves, kind);
  }

  predicate Inside(p: Caller, kind: nat) { !p.Away? && p.kind == kind }

  ghost predicate OneInside(s: System, kind: nat) {
    forall c, d ::
      c in s.callers && d in s.callers && Inside(s.callers[c], kind) && Inside(s.callers[d], kind) ==> c == d
  }

  /** Throughout the run at most one thread at a time is inside a hint of this kind, as with a
      lock around the call. */
  ghost predicate Serial(s0: System, moves: seq<Move>, kind: nat)
    requires Run(s0, moves).Some?
  {
    OneInside(Run(s0, moves).value, kind) && (moves != [] ==> Serial(s0, moves[..|moves| - 1], kind))
  }

  /** Whoever is inside read the clock after the recorded time was read. */
  ghost predicate ReadAfterRecord(s: System, kind: nat) {
    forall c :: c in s.callers && Inside(s.callers[c], kind) ==> Recorded(s, kind) <= Micros(s.callers[c].ns)
  }

  lemma MoveKeepsReading(s: System, m: Move, kind: nat)
    requires ClocksOk(s) && Enabled(s, m) && ReadAfterRecord(s, kind) && OneInside(s, kind)
    ensures ReadAfterRecord(Apply(s, m), kind)
  {
    var s' := Apply(s, m);
    assert Recorded(s, kind) <= Micros(s.sched.now);
    forall c | c in s'.callers && Inside(s'.callers[c], kind) ensures Recorded(s', kind) <= Micros(s'.callers[c].ns) {
      if !m.Schedule? && m.c != c { assert s'.callers[c] == s.callers[c]; }
    }
  }

  /** Spacing for callers that take turns. */
  lemma {:induction false} SerialHintsAreSpaced(s0: System, moves: seq<Move>, kind: nat)
    requires Init(s0) && Run(s0, moves).Some? && Interval(kind) != 0 && Serial(s0, moves, kind)
    ensures Ordered(s0, moves, kind) && ReadAfterRecord(Run(s0, moves).value, kind)
    ensures Spaced(Run(s0, moves).value.accepted, kind)
  {
    if moves != [] {
      SerialHintsAreSpaced(s0, moves[..|moves| - 1], kind);
      RunKeepsClocks(s0, moves[..|moves| - 1]);
      MoveKeepsReading(Run(s0, moves[..|moves| - 1]).value, moves[|moves| - 1], kind);
    }
    OrderedHintsAreSpaced(s0, moves, kind);
  }

  // ---------- and orderings that do not ----------

  const TWO_THREADS := System(PokeScheduler.START, map[], map[0 := Away, 1 := Away], 0, map[], [])

  /** Two threads, 0 and 1, that have read the clock at `first` and `second`. */
  lemma TwoReadings(r: System -> bool, kind: nat, first: nat, second: nat) returns (s: System)
    requires Stable(r) && r(TWO_THREADS) && 0 < first <= second < CLOCK_END
    ensures r(s) && s.accepted == [] && s.hintTime == map[]
    ensures s.callers == map[0 := Sampled(kind, true, 1000 * first), 1 := Sampled(kind, true, 1000 * second)]
  {
    var m1 := Schedule(PokeScheduler.Tick(1000 * first));
    Proceed(r, TWO_THREADS, m1);
    var s1 := Apply(TWO_THREADS, m1);
    Proceed(r, s1, Sample(0, kind, true));
    var s2 := Apply(s1, Sample(0, kind, true));
    var m3 := Schedule(PokeScheduler.Tick(1000 * (second - first)));
    Proceed(r, s2, m3);
    var s3 := Apply(s2, m3);
    assert s3.sched.now == 1000 * second;
    Proceed(r, s3, Sample(1, kind, true));
    s := Apply(s3, Sample(1, kind, true));
  }

  lemma Race(r: System -> bool, kind: nat, first: nat, second: nat) returns (s: System)
    requires Stable(r) && r(TWO_THREADS) && kind < HINT_COUNT && 0 < first <= second < CLOCK_END
    ensures r(s) && s.accepted == [Hint(kind, first), Hint(kind, second)]
  {
    var s1 := TwoReadings(r, kind, first, second);
    Proceed(r, s1, Decide(0));
    var s2 := Apply(s1, Decide(0));
    Proceed(r, s2, Decide(1));
    s := Apply(s2, Decide(1));
  }

  /** Any two readings, however close, are both accepted if both decisions come before a record:
      the first half of the order is needed. */
  lemma RacingHintsAreBothAccepted(kind: nat, first: nat, second: nat) returns (s0: System, moves: seq<Move>)
    requires kind < HINT_COUNT && 0 < first <= second < CLOCK_END
    ensures Init(s0) && Run(s0, moves).Some?
    ensures Run(s0, moves).value.accepted == [Hint(kind, first), Hint(kind, second)]
  {
    s0 := TWO_THREADS;
    ReachableIsStable(s0);
    var s := Race(s => Reachable(TWO_THREADS, s), kind, first, second);
    moves :| Run(s0, moves) == Some(s);
  }

  lemma Overtake(r: System -> bool, kind: nat, first: nat, second: nat) returns (s: System)
    requires Stable(r) && r(TWO_THREADS) && Interval(kind) != 0 && 0 < first < second < CLOCK_END
    ensures r(s) && s.accepted == [Hint(kind, second), Hint(kind, first)] && Recorded(s, kind) == second
  {
    var s1 := TwoReadings(r, kind, first, second);
    Proceed(r, s1, Decide(1));
    var s2 := Finish(r, Apply(s1, Decide(1)), 1);
    AcceptsOutside(second, kind, first);
    assert Recorded(s2, kind) == second && !TurnsAway(s2, 0);
    Proceed(r, s2, Decide(0));
    s := Apply(s2, Decide(0));
  }

  /** A thread overtaken between its reading and its decision is accepted too, although the later
      hint is on record: the unsigned difference wraps.  The second half is needed. */
  lemma OvertakenHintIsAccepted(kind: nat, first: nat, second: nat) returns (s0: System, moves: seq<Move>)
    requires Interval(kind) != 0 && 0 < first < second < CLOCK_END
    ensures Init(s0) && Run(s0, moves).Some?
    ensures Run(s0, moves).value.accepted == [Hint(kind, second), Hint(kind, first)]
    ensures Recorded(Run(s0, moves).value, kind) == second
  {
    s0 := TWO_THREADS;
    ReachableIsStable(s0);
    var s := Overtake(s => Reachable(TWO_THREADS, s), kind, first, second);
    moves :| Run(s0, moves) == Some(s);
  }
}
