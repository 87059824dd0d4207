/** Deadlock freedom of the audio HAL, for any number of threads and streams. */
module AudioLocks {
  import opened Options
  import opened AudioState
  import opened AudioMachine

  /** The locks that a thread has taken and not yet dropped at a program point. */
  function Holds(pc: Pc): set<Lock> {
    match pc
    case Idle => {}
    case WantDev(_) => {}
    case WantAlone(_) => {}
    case HasDev(_) => {DevLock}
    case WantOwn(_) => {DevLock}
    case Finishing(_, _) => {DevLock}
    case HasPeer(op, p) => if op.DeviceOnly? then {} else {DevLock, Own(op), StreamLock(p)}
    case Moving(op, _, _) => if op.DeviceOnly? then {} else {Own(op)}
    case Exiting(op) => if op.DeviceOnly? then {} else {Own(op)}
    case HasAlone(op) => if op.DeviceOnly? then {} else {Own(op)}
    case _ => if pc.op.DeviceOnly? then {} else {DevLock, Own(pc.op)}
  }

  /** Ownership is exactly what the program points say. */
  ghost predicate LocksMatch(s: State) {
    && (forall l :: l in s.owner ==> s.owner[l] in s.pcs && l in Holds(s.pcs[s.owner[l]]))
    && (forall t, l :: t in s.pcs && l in Holds(s.pcs[t]) ==> l in s.owner && s.owner[l] == t)
  }

  ghost predicate StreamsOk(s: State) {
    && (s.dev.activeOut.Some? ==> s.dev.activeOut.value in s.outs && s.outs[s.dev.activeOut.value].config.PcmConfig?)
    && (s.dev.activeIn.Some? ==> s.dev.activeIn.value in s.ins)
    && (forall i :: i in s.outs && !s.outs[i].standby ==> s.outs[i].config.PcmConfig?)
    && (forall i :: i in s.ins ==> s.ins[i].config.PcmConfig? && s.ins[i].configNonSco.PcmConfig?)
  }

  ghost predicate LockInv(s: State) {
    && LocksMatch(s)
    && StreamsOk(s)
    && forall t :: t in s.pcs ==> WellFormed(s, s.pcs[t])
  }

  lemma InitLocks(s: State)
    requires Init(s)
    ensures LockInv(s)
  {
  }

  /** Data steps never remove a stream, nor take a configuration away. */
  ghost predicate Extends(s: State, s': State) {
    && s'.outs.Keys == s.outs.Keys && s'.ins.Keys == s.ins.Keys
    && (forall i :: i in s.outs && s.outs[i].config.PcmConfig? ==> s'.outs[i].config.PcmConfig?)
    && (forall i :: i in s.ins && s.ins[i].config.PcmConfig? ==> s'.ins[i].config.PcmConfig?)
  }

  lemma PutStandbyExtends(s: State, x: Stream)
    requires StreamsOk(s) && HasStream(s, x)
    ensures Extends(s, PutStandby(s, x)) && StreamsOk(PutStandby(s, x))
  {
  }

  lemma SelectExtends(s: State, x: Stream)
    requires StreamsOk(s) && HasStream(s, x)
    ensures Extends(s, Select(s, x)) && StreamsOk(Select(s, x)) && Config(Select(s, x), x).PcmConfig?
    ensures Select(s, x).dev == s.dev
  {
  }

  lemma OpenExtends(s: State, x: Stream, c: Choice)
    requires StreamsOk(s) && HasStream(s, x) && Config(s, x).PcmConfig?
    ensures Extends(s, Open(s, x, c)) && StreamsOk(Open(s, x, c))
  {
  }

  lemma ClearStandbyExtends(s: State, x: Stream)
    requires StreamsOk(s) && HasStream(s, x) && Config(s, x).PcmConfig?
    ensures Extends(s, ClearStandby(s, x)) && StreamsOk(ClearStandby(s, x))
  {
  }

  lemma MoveExtends(s: State, x: Stream, sco: bool, wanted: BufferType, c: Choice)
    requires StreamsOk(s) && HasStream(s, x) && Config(s, x).PcmConfig?
    ensures Extends(s, Move(s, x, sco, wanted, c)) && StreamsOk(Move(s, x, sco, wanted, c))
  {
  }

  lemma DataExtends(s: State, pc: Pc, c: Choice)
    requires StreamsOk(s) && WellFormed(s, pc)
    ensures Extends(s, Data(s, pc, c)) && StreamsOk(Data(s, pc, c))
  {
    if pc.HasBoth? {
      if pc.op.Transfer? { SelectExtends(s, pc.op.s); } else { PutStandbyExtends(s, pc.op.s); }
    } else if pc.HasPeer? {
      PutStandbyExtends(s, pc.peer);
    } else if pc.Opening? {
      OpenExtends(s, pc.op.s, c);
    } else if pc.Opened? {
      ClearStandbyExtends(s, pc.op.s);
    } else if pc.Moving? {
      MoveExtends(s, pc.op.s, pc.sco, pc.wanted, c);
    }
  }

  lemma ExtendsWellFormed(s: State, s': State, pc: Pc)
    requires WellFormed(s, pc) && Extends(s, s')
    ensures WellFormed(s', pc)
  {
  }

  lemma NextFits(s: State, pc: Pc, c: Choice)
    requires StreamsOk(s) && WellFormed(s, pc)
    requires !(pc.HasBoth? && pc.op.Transfer? && IsStandby(s, pc.op.s))
    ensures WellFormed(s, NextPc(s, pc, c))
  {
  }

  lemma StartFits(s: State, op: Op, c: Choice)
    requires StreamsOk(s) && WellFormed(s, HasBoth(op)) && op.Transfer? && IsStandby(s, op.s)
    ensures WellFormed(Select(s, op.s), NextPc(s, HasBoth(op), c))
  {
    SelectExtends(s, op.s);
    if Peer(s.dev, op.s).Some? {
      assert HasStream(s, Peer(s.dev, op.s).value) && Config(s, Peer(s.dev, op.s).value).PcmConfig?;
    }
  }

  /** A step takes the lock it waited for, or drops one it holds. */
  lemma EffectMatches(s: State, pc: Pc, c: Choice)
    requires WellFormed(s, pc)
    ensures var pc' := NextPc(s, pc, c);
            match Effect(pc)
            case Keep => Holds(pc') == Holds(pc)
            case Take(l) => l !in Holds(pc) && Holds(pc') == Holds(pc) + {l}
            case Drop(l) => l in Holds(pc) && Holds(pc') == Holds(pc) - {l}
  {
  }

  lemma NextIsWellFormed(s: State, pc: Pc, c: Choice)
    requires StreamsOk(s) && WellFormed(s, pc)
    ensures WellFormed(Data(s, pc, c), NextPc(s, pc, c))
  {
    if pc.HasBoth? && pc.op.Transfer? && IsStandby(s, pc.op.s) {
      StartFits(s, pc.op, c);
    } else {
      NextFits(s, pc, c);
      DataExtends(s, pc, c);
      ExtendsWellFormed(s, Data(s, pc, c), NextPc(s, pc, c));
    }
  }

  lemma GoKeepsLocks(s: State, t: nat, d: State, pc': Pc)
    requires LockInv(s) && t in s.pcs && Extends(s, d) && StreamsOk(d) && WellFormed(d, pc')
    requires var pc := s.pcs[t];
             match Effect(pc)
             case Keep => Holds(pc') == Holds(pc)
             case Take(l) => l !in s.owner && Holds(pc') == Holds(pc) + {l}
             case Drop(l) => l in Holds(pc) && Holds(pc') == Holds(pc) - {l}
    ensures LockInv(State(d.dev, d.outs, d.ins, NextOwner(s.owner, t, Effect(s.pcs[t])), s.pcs[t := pc']))
  {
    var s' := State(d.dev, d.outs, d.ins, NextOwner(s.owner, t, Effect(s.pcs[t])), s.pcs[t := pc']);
    forall u | u in s'.pcs ensures WellFormed(s', s'.pcs[u]) {
      if u != t { ExtendsWellFormed(s, s', s.pcs[u]); } else { ExtendsWellFormed(d, s', pc'); }
    }
    MatchAfter(s, s', t, Effect(s.pcs[t]));
  }

  lemma MatchAfter(s: State, s': State, t: nat, e: LockEffect)
    requires LocksMatch(s) && t in s.pcs && s'.owner == NextOwner(s.owner, t, e)
    requires t in s'.pcs && s'.pcs == s.pcs[t := s'.pcs[t]]
    requires match e
             case Keep => Holds(s'.pcs[t]) == Holds(s.pcs[t])
             case Take(l) => l !in s.owner && Holds(s'.pcs[t]) == Holds(s.pcs[t]) + {l}
             case Drop(l) => l in Holds(s.pcs[t]) && Holds(s'.pcs[t]) == Holds(s.pcs[t]) - {l}
    ensures LocksMatch(s')
  {
  }

  lemma BeginKeepsLocks(s: State, t: nat, op: Op)
    requires LockInv(s) && Enabled(s, Begin(t, op))
    ensures LockInv(Apply(s, Begin(t, op)))
  {
    MatchAfter(s, Apply(s, Begin(t, op)), t, Keep);
  }

  lemma ScreenKeepsLocks(s: State, off: bool)
    requires LockInv(s)
    ensures LockInv(Apply(s, Screen(off)))
  {
    var s' := Apply(s, Screen(off));
    assert Extends(s, s') && s'.pcs == s.pcs && s'.owner == s.owner;
    forall u | u in s'.pcs ensures WellFormed(s', s'.pcs[u]) { ExtendsWellFormed(s, s', s.pcs[u]); }
  }

  lemma StepKeepsLocks(s: State, step: Step)
    requires LockInv(s) && Enabled(s, step)
    ensures LockInv(Apply(s, step))
  {
    match step
    case Begin(t, op) => BeginKeepsLocks(s, t, op);
    case Screen(off) => ScreenKeepsLocks(s, off);
    case Go(t, c) =>
      var pc := s.pcs[t];
      DataExtends(s, pc, c);
      EffectMatches(s, pc, c);
      NextIsWellFormed(s, pc, c);
      GoKeepsLocks(s, t, Data(s, pc, c), NextPc(s, pc, c));
  }

  lemma {:induction false} RunKeepsLocks(s: State, steps: seq<Step>)
    requires Init(s) && Run(s, steps).Some?
    ensures LockInv(Run(s, steps).value)
  {
    if steps == [] {
      InitLocks(s);
    } else {
      RunKeepsLocks(s, steps[..|steps| - 1]);
      StepKeepsLocks(Run(s, steps[..|steps| - 1]).value, steps[|steps| - 1]);
    }
  }

  // ---------- waiting ----------

  predicate WaitsFor(s: State, t: nat, u: nat) {
    t in s.pcs && Wants(s.pcs[t]).Some? && Wants(s.pcs[t]).value in s.owner && s.owner[Wants(s.pcs[t]).value] == u
  }

  /** No lock has two holders. */
  lemma Exclusive(s: State, t: nat, u: nat)
    requires LocksMatch(s) && t in s.pcs && u in s.pcs && t != u
    ensures Holds(s.pcs[t]) !! Holds(s.pcs[u])
  {
    forall l | l in Holds(s.pcs[t]) ensures l !in Holds(s.pcs[u]) { assert s.owner[l] == t; }
  }

  /** A chain of threads, each waiting for a lock that the next one holds. */
  ghost predicate Chain(s: State, p: seq<nat>) {
    forall i :: 0 <= i < |p| - 1 ==> WaitsFor(s, p[i], p[i + 1])
  }

  /** A thread that waits for the device lock holds nothing; one that waits for a stream lock
      holds the device lock or nothing; no thread waits for a lock it holds. */
  lemma WaitingDiscipline(s: State, t: nat)
    requires LockInv(s) && t in s.pcs && Wants(s.pcs[t]).Some?
    ensures Wants(s.pcs[t]).value !in Holds(s.pcs[t])
    ensures Wants(s.pcs[t]) == Some(DevLock) ==> Holds(s.pcs[t]) == {}
    ensures Holds(s.pcs[t]) == {} || DevLock in Holds(s.pcs[t])
  {
  }

  /** Two waits in a row end at a thread that does not wait. */
  lemma ChainsAreShort(s: State, t: nat, u: nat, v: nat)
    requires LockInv(s) && WaitsFor(s, t, u) && WaitsFor(s, u, v)
    ensures t != u && u != v && t != v && v in s.pcs && Wants(s.pcs[v]).None?
  {
    WaitingDiscipline(s, t);
    WaitingDiscipline(s, u);
    assert Wants(s.pcs[t]).value in Holds(s.pcs[u]);
    assert Wants(s.pcs[u]).value in Holds(s.pcs[v]);
    assert s.owner[DevLock] == u;
    if Wants(s.pcs[v]).Some? {
      WaitingDiscipline(s, v);
    }
  }

  /** Deadlock freedom: in every state that any run of any number of threads over any number
      of streams reaches, a chain of waiting threads has at most three members, all of them
      different, so the waits-for relation has no cycle. */
  lemma NoDeadlock(s0: State, steps: seq<Step>, p: seq<nat>)
    requires Init(s0) && Run(s0, steps).Some?
    requires Chain(Run(s0, steps).value, p)
    ensures |p| <= 3 && forall i, j :: 0 <= i < j < |p| ==> p[i] != p[j]
  {
    var s := Run(s0, steps).value;
    RunKeepsLocks(s0, steps);
    if |p| >= 2 {
      assert WaitsFor(s, p[0], p[1]);
      WaitingDiscipline(s, p[0]);
    }
    if |p| >= 3 {
      assert WaitsFor(s, p[1], p[2]);
      ChainsAreShort(s, p[0], p[1], p[2]);
    }
    assert |p| >= 4 ==> WaitsFor(s, p[2], p[3]);
  }

  // ---------- progress ----------

  /** An upper bound on the steps a thread still has to make before it is idle again. */
  function StepsLeft(pc: Pc): nat {
    match pc
    case Idle => 0
    case Exiting(_) => 1
    case Finishing(_, _) => 1
    case HasAlone(_) => 1
    case Failed(_) => 2
    case Moving(_, _, _) => 2
    case WantAlone(_) => 2
    case Snapshot(_) => 3
    case Opened(_) => 4
    case Opening(_) => 5
    case HasPeer(_, _) => 6
    case WantPeer(_, _) => 7
    case HasBoth(_) => 8
    case WantOwn(_) => 9
    case HasDev(_) => 10
    case WantDev(_) => 11
  }

  /** Every step of an entry point brings its thread closer to the end, where it holds no
      lock, and moves no other thread: each entry point ends after at most eleven steps. */
  lemma StepsRunOut(s: State, t: nat, c: Choice)
    requires Enabled(s, Go(t, c))
    ensures var s' := Apply(s, Go(t, c));
            && s'.pcs == s.pcs[t := s'.pcs[t]]
            && StepsLeft(s'.pcs[t]) < StepsLeft(s.pcs[t]) <= 11
            && (StepsLeft(s'.pcs[t]) == 0 <==> s'.pcs[t].Idle?)
  {
  }

  lemma FreshPcm(pcms: set<nat>) returns (n: nat)
    ensures forall m :: m in pcms ==> m < n
  {
    n := 0;
    var rest := pcms;
    while rest != {}
      invariant rest <= pcms
      invariant forall m :: m in pcms && m !in rest ==> m < n
    {
      var m :| m in rest;
      rest := rest - {m};
      n := if n > m then n else m + 1;
    }
  }

  /** The thread that `t` is held up by, directly or through one other: it waits for nothing. */
  lemma Runner(s: State, t: nat) returns (r: nat)
    requires LockInv(s) && t in s.pcs && !s.pcs[t].Idle?
    ensures r in s.pcs && !s.pcs[r].Idle?
    ensures Wants(s.pcs[r]).Some? ==> Wants(s.pcs[r]).value !in s.owner
  {
    r := t;
    if Wants(s.pcs[t]).Some? && Wants(s.pcs[t]).value in s.owner {
      r := s.owner[Wants(s.pcs[t]).value];
      if Wants(s.pcs[r]).Some? && Wants(s.pcs[r]).value in s.owner {
        var u := r;
        r := s.owner[Wants(s.pcs[u]).value];
        ChainsAreShort(s, t, u, r);
      }
    }
  }

  /** Whenever some thread is inside an entry point, some thread inside one can take a step. */
  lemma Progress(s0: State, steps: seq<Step>, t: nat) returns (r: nat, c: Choice)
    requires Init(s0) && Run(s0, steps).Some?
    requires var s := Run(s0, steps).value; t in s.pcs && !s.pcs[t].Idle?
    ensures Enabled(Run(s0, steps).value, Go(r, c))
  {
    var s := Run(s0, steps).value;
    RunKeepsLocks(s0, steps);
    r := Runner(s, t);
    var pcm := FreshPcm(s.dev.pcms);
    c := Choice(true, pcm, 0, 0);
  }
}
