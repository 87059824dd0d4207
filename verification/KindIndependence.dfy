/** Hints of different kinds never affect each other, with any number of threads giving hints of
    all kinds at once: what happens to the hints of one kind is the same in the run from which
    every move of the other kinds, and of the scheduler, is removed. */
module KindIndependence {
  import opened Options
  import PokeScheduler
  import opened PowerHints
  import opened BoostCoverage
  import opened HintSpacing

  /** The move is about hints of this kind, or lets time pass. */
  predicate Concerns(s: System, m: Move, kind: nat) {
    match m
    case Schedule(step) => step.Tick?
    case Sample(_, k, _) => k == kind
    case Decide(c) => c in s.callers && Inside(s.callers[c], kind)
    case PushNext(c) => c in s.callers && Inside(s.callers[c], kind)
    case Commit(c) => c in s.callers && Inside(s.callers[c], kind)
  }

  /** A move that does not concern a kind changes neither its recorded time nor the position and
      the decision of any thread inside a hint of that kind. */
  lemma OtherKindsChangeNothing(s: System, m: Move, kind: nat, c: nat)
    requires Enabled(s, m) && !Concerns(s, m, kind) && c in s.callers && Inside(s.callers[c], kind)
    ensures var s' := Apply(s, m);
            && Recorded(s', kind) == Recorded(s, kind) && c in s'.callers && s'.callers[c] == s.callers[c]
            && (s.callers[c].Sampled? ==> TurnsAway(s', c) == TurnsAway(s, c))
  {
  }

  // ---------- whole runs ----------

  /** The moves of a run that concern one kind. */
  ghost function Own(s0: System, moves: seq<Move>, kind: nat): seq<Move>
    requires Run(s0, moves).Some?
  {
    if moves == [] then []
    else
      var init, m := moves[..|moves| - 1], moves[|moves| - 1];
      if Concerns(Run(s0, init).value, m, kind) then Own(s0, init, kind) + [m] else Own(s0, init, kind)
  }

  /** A thread's position as far as this kind is concerned: keys differ, their number does not. */
  predicate Alike(p: Caller, q: Caller, kind: nat) {
    if !Inside(p, kind) then q.Away?
    else if p.Sampled? then q == p
    else q.Pushing? && q == p.(keys := q.keys) && |q.keys| == |p.keys|
  }

  /** Two systems agree on one kind: clock, recorded time, threads, accepted hints. */
  ghost predicate Agree(s: System, t: System, kind: nat) {
    && t.sched.now == s.sched.now && t.maxFrequency == s.maxFrequency
    && Recorded(t, kind) == Recorded(s, kind) && t.accepted == Only(s.accepted, kind)
    && t.callers.Keys == s.callers.Keys
    && forall c :: c in s.callers ==> Alike(s.callers[c], t.callers[c], kind)
  }

  /** Then they decide alike. */
  lemma AgreeDecides(s: System, t: System, kind: nat, c: nat)
    requires Agree(s, t, kind) && c in s.callers && s.callers[c].Sampled? && s.callers[c].kind == kind
    ensures t.callers[c] == s.callers[c] && TurnsAway(t, c) == TurnsAway(s, c)
  {
    assert Alike(s.callers[c], t.callers[c], kind);
  }

  lemma OnlySnoc(hints: seq<Hint>, h: Hint, kind: nat)
    ensures Only(hints + [h], kind) == if h.kind == kind then Only(hints, kind) + [h] else Only(hints, kind)
  {
    assert (hints + [h])[..|hints|] == hints;
  }

  /** One thread moves, on both sides or on one, and nothing else changes for the kind. */
  lemma ThreadAgrees(s: System, t: System, s': System, t': System, c: nat, kind: nat)
    requires Agree(s, t, kind) && c in s.callers && c in s'.callers && c in t'.callers
    requires s'.callers == s.callers[c := s'.callers[c]] && t'.callers == t.callers[c := t'.callers[c]]
    requires Alike(s'.callers[c], t'.callers[c], kind)
    requires t'.sched.now == s'.sched.now && t'.maxFrequency == s'.maxFrequency
    requires Recorded(t', kind) == Recorded(s', kind) && t'.accepted == Only(s'.accepted, kind)
    ensures Agree(s', t', kind)
  {
    forall d | d in s'.callers ensures Alike(s'.callers[d], t'.callers[d], kind) {
      if d != c { assert Alike(s.callers[d], t.callers[d], kind); }
    }
  }

  lemma OwnMoveAgrees(s: System, t: System, m: Move, kind: nat)
    requires Agree(s, t, kind) && Enabled(s, m) && Concerns(s, m, kind)
    ensures Enabled(t, m) && Agree(Apply(s, m), Apply(t, m), kind)
  {
    match m
    case Schedule(_) =>
    case Sample(c, _, _) =>
      assert Alike(s.callers[c], t.callers[c], kind);
      ThreadAgrees(s, t, Apply(s, m), Apply(t, m), c, kind);
    case Decide(c) => DecideAgrees(s, t, c, kind);
    case PushNext(c) =>
      assert Alike(s.callers[c], t.callers[c], kind);
      ThreadAgrees(s, t, Apply(s, m), Apply(t, m), c, kind);
    case Commit(c) =>
      assert Alike(s.callers[c], t.callers[c], kind);
      ThreadAgrees(s, t, Apply(s, m), Apply(t, m), c, kind);
  }

  lemma DecideAgrees(s: System, t: System, c: nat, kind: nat)
    requires Agree(s, t, kind) && Enabled(s, Decide(c)) && s.callers[c].kind == kind
    ensures Enabled(t, Decide(c)) && Agree(Apply(s, Decide(c)), Apply(t, Decide(c)), kind)
  {
    AgreeDecides(s, t, kind, c);
    OnlySnoc(s.accepted, Hint(kind, Micros(s.callers[c].ns)), kind);
    ThreadAgrees(s, t, Apply(s, Decide(c)), Apply(t, Decide(c)), c, kind);
  }

  lemma OtherMoveAgrees(s: System, t: System, m: Move, kind: nat)
    requires Agree(s, t, kind) && Enabled(s, m) && !Concerns(s, m, kind)
    ensures Agree(Apply(s, m), t, kind)
  {
    match m
    case Schedule(_) =>
    case Sample(c, _, _) => Stays(s, t, m, c, kind);
    case Decide(c) =>
      OnlySnoc(s.accepted, Hint(s.callers[c].kind, Micros(s.callers[c].ns)), kind);
      Stays(s, t, m, c, kind);
    case PushNext(c) => Stays(s, t, m, c, kind);
    case Commit(c) => Stays(s, t, m, c, kind);
  }

  lemma Stays(s: System, t: System, m: Move, c: nat, kind: nat)
    requires Agree(s, t, kind) && Enabled(s, m) && !Concerns(s, m, kind) && !m.Schedule? && m.c == c
    requires Only(Apply(s, m).accepted, kind) == Only(s.accepted, kind)
    ensures Agree(Apply(s, m), t, kind)
  {
    assert Alike(s.callers[c], t.callers[c], kind);
    assert t.callers == t.callers[c := t.callers[c]];
    ThreadAgrees(s, t, Apply(s, m), t, c, kind);
  }

  /** Independence: over every run, the moves of one kind alone, with the clock, are a run too, and
      both agree on that kind; so its hints are decided alike, whatever the other kinds do. */
  lemma {:induction false} KindsAreIndependent(s0: System, moves: seq<Move>, kind: nat)
    requires Init(s0) && Run(s0, moves).Some?
    ensures Run(s0, Own(s0, moves, kind)).Some?
    ensures Agree(Run(s0, moves).value, Run(s0, Own(s0, moves, kind)).value, kind)
  {
    if moves != [] {
      var init, m := moves[..|moves| - 1], moves[|moves| - 1];
      KindsAreIndependent(s0, init, kind);
      var s, t := Run(s0, init).value, Run(s0, Own(s0, init, kind)).value;
      if Concerns(s, m, kind) {
        OwnMoveAgrees(s, t, m, kind);
        var t' := Then(s0, Own(s0, init, kind), t, m);
      } else {
        OtherMoveAgrees(s, t, m, kind);
      }
    }
  }
}
