/** The state invariants of the audio HAL with one output and one input stream, over every
    interleaving of any number of threads. */
module AudioInvariant {
  import opened Options
  import opened AudioState
  import opened AudioThreshold
  import opened AudioMachine
  import opened AudioLocks

  predicate Single(s: State) {
    && 0 in s.outs && 0 in s.ins
    && (forall k :: k in s.outs ==> k == 0) && (forall k :: k in s.ins ==> k == 0)
  }

  // ---------- the data ----------

  /** The PCM configuration that the routing calls for. */
  function ChosenOut(d: Dev): PcmConfig { if IsSco(d.outDevice) then CONFIG_SCO else CONFIG_OUT }

  function ChosenIn(d: Dev, i: In): PcmConfig { if IsSco(d.inDevice) then CONFIG_SCO else i.configNonSco }

  /** An active output stream has an open PCM configured for the routing, and a resampler and
      its buffer exactly when the rates differ; an inactive one is in standby with neither. */
  predicate OutOk(d: Dev, o: Out) {
    && (d.activeOut == Some(0) || d.activeOut == None)
    && (if d.activeOut.Some?
        then o.pcm.Some? && o.pcm.value in d.pcms && o.config == ChosenOut(d)
             && (o.resampler <==> o.config.rate != OUT_RATE) && o.buffer == o.resampler
        else o.standby && !o.resampler && !o.buffer)
  }

  predicate InOk(d: Dev, i: In) {
    && (d.activeIn == Some(0) || d.activeIn == None)
    && (i.configNonSco == CONFIG_IN || i.configNonSco == CONFIG_IN_LOW_LATENCY)
    && (if d.activeIn.Some?
        then i.pcm.Some? && i.pcm.value in d.pcms && i.config == ChosenIn(d, i)
             && (i.resampler <==> i.config.rate != i.requestedRate) && i.buffer
        else i.standby && !i.resampler && !i.buffer)
  }

  /** The PCMs of the active streams, which are all the PCMs there are. */
  function Used(d: Dev, o: Out, i: In): set<nat> {
    (if d.activeOut.Some? && o.pcm.Some? then {o.pcm.value} else {})
    + (if d.activeIn.Some? && i.pcm.Some? then {i.pcm.value} else {})
  }

  predicate Core(d: Dev, o: Out, i: In) {
    && OutOk(d, o) && InOk(d, i)
    && d.pcms == Used(d, o, i)
    && (d.activeOut.Some? && d.activeIn.Some? ==> o.pcm != i.pcm && SameGroup(o.config.rate, i.config.rate))
  }

  /** What the owner of a program point may rely on. */
  predicate PcOk(d: Dev, o: Out, i: In, pc: Pc) {
    match pc
    case Finishing(op, apply) =>
      apply ==> op.Route? && (Active(d, op.s) ==> !ScoChanges(Routing(d, op.s), op.mask))
    case WantOwn(op) => op.Route? ==> op.mask.sco != Routing(d, op.s).sco
    case HasBoth(op) => op.Route? ==> op.mask.sco != Routing(d, op.s).sco
    case WantPeer(op, p) =>
      !op.DeviceOnly? && Chosen(d, o, i, op.s) && Active(d, p) && p.id == 0 && p.OutS? != op.s.OutS?
    case HasPeer(op, p) =>
      !op.DeviceOnly? && Chosen(d, o, i, op.s) && Active(d, p) && p.id == 0 && p.OutS? != op.s.OutS?
    case Opening(op) => !op.DeviceOnly? && Chosen(d, o, i, op.s) && NoConflict(d, o, i)
    case Opened(op) => !op.DeviceOnly? && Active(d, op.s)
    case Snapshot(op) => !op.DeviceOnly? && Active(d, op.s)
    case Moving(op, sco, _) => !op.DeviceOnly? && Active(d, op.s) && sco == IsSco(Routing(d, op.s))
    case _ => true
  }

  /** The stream is closed and its configuration is chosen. */
  predicate Chosen(d: Dev, o: Out, i: In, x: Stream) {
    && !Active(d, x) && x.id == 0
    && (if x.OutS? then o.config == ChosenOut(d) else i.config == ChosenIn(d, i))
  }

  predicate NoConflict(d: Dev, o: Out, i: In) {
    && (d.activeIn.Some? ==> i.config.PcmConfig? && o.config.PcmConfig? && !Conflict(o.config.rate, i.config.rate))
    && (d.activeOut.Some? ==> i.config.PcmConfig? && o.config.PcmConfig? && !Conflict(i.config.rate, o.config.rate))
  }

  /** A stream leaves standby only when it is active, and is active in standby only while the
      thread that holds the device lock is about to clear the mark. */
  ghost predicate MarksOk(s: State, x: Stream)
    requires HasStream(s, x)
  {
    && (!IsStandby(s, x) ==> Active(s.dev, x))
    && (Active(s.dev, x) && IsStandby(s, x) ==>
          DevLock in s.owner && s.owner[DevLock] in s.pcs && s.pcs[s.owner[DevLock]] == Opened(Transfer(x)))
  }

  ghost predicate Inv(s: State) {
    && LockInv(s) && Single(s)
    && Core(s.dev, s.outs[0], s.ins[0])
    && MarksOk(s, OutS(0)) && MarksOk(s, InS(0))
    && forall t :: t in s.pcs ==> PcOk(s.dev, s.outs[0], s.ins[0], s.pcs[t])
  }

  // ---------- each data step keeps the core ----------

  lemma OutStandbyKeeps(d: Dev, o: Out, i: In)
    requires Core(d, o, i) && (d.activeOut.Some? ==> !o.standby)
    ensures var (d', o') := OutStandby(d, o);
            && Core(d', o', i) && o'.standby && d'.activeOut == None
            && d' == d.(activeOut := None, pcms := d'.pcms)
  {
  }

  lemma InStandbyKeeps(d: Dev, o: Out, i: In)
    requires Core(d, o, i) && (d.activeIn.Some? ==> !i.standby)
    ensures var (d', i') := InStandby(d, i);
            && Core(d', o, i') && i'.standby && d'.activeIn == None
            && d' == d.(activeIn := None, pcms := d'.pcms)
  {
  }

  lemma SelectKeeps(d: Dev, o: Out, i: In)
    requires Core(d, o, i)
    ensures d.activeOut == None ==> Core(d, SelectOut(d, o), i) && SelectOut(d, o).config == ChosenOut(d)
    ensures d.activeIn == None ==> Core(d, o, SelectIn(d, i)) && SelectIn(d, i).config == ChosenIn(d, i)
  {
  }

  lemma OpenOutKeeps(d: Dev, o: Out, i: In, pcm: nat, ready: bool)
    requires Core(d, o, i) && Chosen(d, o, i, OutS(0)) && NoConflict(d, o, i) && pcm !in d.pcms
    ensures var (d', o') := OpenOut(d, o, 0, pcm, ready);
            && Core(d', o', i) && o'.standby && d'.activeIn == d.activeIn
            && d'.activeOut == (if ready then Some(0) else None)
  {
  }

  lemma OpenInKeeps(d: Dev, o: Out, i: In, pcm: nat, ready: bool)
    requires Core(d, o, i) && Chosen(d, o, i, InS(0)) && NoConflict(d, o, i) && pcm !in d.pcms
    ensures var (d', i') := OpenIn(d, i, 0, pcm, ready);
            && Core(d', o, i') && i'.standby && d'.activeOut == d.activeOut
            && d'.activeIn == (if ready then Some(0) else None)
  {
  }

  lemma RouteKeeps(d: Dev, o: Out, i: In, x: Stream, mask: Mask)
    requires Core(d, o, i) && (Active(d, x) ==> !ScoChanges(Routing(d, x), mask)) && x.id == 0
    ensures Core(WithMask(d, x, mask), o, i)
  {
  }

  lemma MoveKeeps(d: Dev, o: Out, i: In, sco: bool, wanted: BufferType, fill: int, frames: nat)
    requires Core(d, o, i) && d.activeOut == Some(0)
    ensures var o' := if sco then o else Throttled(o, wanted, fill);
            && Core(d, o'.(written := o'.written + frames), i)
            && o'.standby == o.standby && o'.config == o.config && o'.pcm == o.pcm
  {
  }

  // ---------- each step of a thread keeps the invariant ----------

  /** What a thread knows at its program point. */
  ghost predicate Ready(s: State, pc: Pc) {
    && Single(s) && WellFormed(s, pc)
    && Core(s.dev, s.outs[0], s.ins[0])
    && PcOk(s.dev, s.outs[0], s.ins[0], pc)
  }

  /** The thread's own step: the core survives and the thread may rely on its next point. */
  ghost predicate OwnStepOk(s: State, pc: Pc, c: Choice)
    requires WellFormed(s, pc)
  {
    var d := Data(s, pc, c);
    Single(d) && Core(d.dev, d.outs[0], d.ins[0]) && PcOk(d.dev, d.outs[0], d.ins[0], NextPc(s, pc, c))
  }

  /** Each stream is out of standby exactly when it is the active one. */
  predicate Marks(d: Dev, o: Out, i: In) {
    (d.activeOut == Some(0) <==> !o.standby) && (d.activeIn == Some(0) <==> !i.standby)
  }

  predicate Settled(s: State)
    requires Single(s)
  {
    Marks(s.dev, s.outs[0], s.ins[0])
  }

  /** A thread that holds the device lock and is not about to clear a standby mark finds the
      marks settled. */
  lemma MarksSettled(s: State, t: nat)
    requires Inv(s) && t in s.pcs && DevLock in Holds(s.pcs[t]) && !s.pcs[t].Opened?
    ensures Settled(s)
  {
    assert s.owner[DevLock] == t;
    assert MarksOk(s, OutS(0)) && MarksOk(s, InS(0));
  }

  lemma StandbyOk(s: State, op: Op, c: Choice)
    requires Ready(s, HasBoth(op)) && Settled(s) && !op.Transfer?
    ensures OwnStepOk(s, HasBoth(op), c)
  {
    if op.s.OutS? {
      OutStandbyKeeps(s.dev, s.outs[0], s.ins[0]);
    } else {
      InStandbyKeeps(s.dev, s.outs[0], s.ins[0]);
    }
  }

  lemma StartOk(s: State, op: Op, c: Choice)
    requires Ready(s, HasBoth(op)) && Settled(s) && op.Transfer?
    ensures OwnStepOk(s, HasBoth(op), c)
  {
    if IsStandby(s, op.s) { SelectKeeps(s.dev, s.outs[0], s.ins[0]); }
  }

  lemma HasPeerOk(s: State, op: Op, p: Stream, c: Choice)
    requires Ready(s, HasPeer(op, p)) && Settled(s)
    ensures OwnStepOk(s, HasPeer(op, p), c)
  {
    var d, o, i := s.dev, s.outs[0], s.ins[0];
    if p.OutS? { OutStandbyKeeps(d, o, i); } else { InStandbyKeeps(d, o, i); }
  }

  lemma OpeningOk(s: State, op: Op, c: Choice)
    requires Ready(s, Opening(op)) && c.pcm !in s.dev.pcms
    ensures OwnStepOk(s, Opening(op), c)
  {
    if op.s.OutS? {
      OpenOutKeeps(s.dev, s.outs[0], s.ins[0], c.pcm, c.ready);
    } else {
      OpenInKeeps(s.dev, s.outs[0], s.ins[0], c.pcm, c.ready);
    }
  }

  lemma OpenedOk(s: State, op: Op, c: Choice)
    requires Ready(s, Opened(op))
    ensures OwnStepOk(s, Opened(op), c)
  {
  }

  lemma MovingOk(s: State, pc: Pc, c: Choice)
    requires pc.Moving? && Ready(s, pc)
    ensures OwnStepOk(s, pc, c)
  {
    if pc.op.s.OutS? { MoveKeeps(s.dev, s.outs[0], s.ins[0], pc.sco, pc.wanted, c.fill, c.frames); }
  }

  lemma FinishingOk(s: State, pc: Pc, c: Choice)
    requires pc.Finishing? && Ready(s, pc)
    ensures OwnStepOk(s, pc, c)
  {
    if pc.apply { RouteKeeps(s.dev, s.outs[0], s.ins[0], pc.op.s, pc.op.mask); }
  }

  predicate Quiet(pc: Pc) {
    !pc.HasBoth? && !pc.HasPeer? && !pc.Opening? && !pc.Opened? && !pc.Moving? && !pc.Finishing?
  }

  lemma QuietOk(s: State, pc: Pc, c: Choice)
    requires Ready(s, pc) && Quiet(pc)
    ensures Data(s, pc, c) == s && PcOk(s.dev, s.outs[0], s.ins[0], NextPc(s, pc, c))
  {
  }

  lemma OwnStep(s: State, t: nat, c: Choice)
    requires Inv(s) && Enabled(s, Go(t, c))
    ensures OwnStepOk(s, s.pcs[t], c)
  {
    var pc := s.pcs[t];
    assert Ready(s, pc);
    if pc.HasBoth? { MarksSettled(s, t); if pc.op.Transfer? { StartOk(s, pc.op, c); } else { StandbyOk(s, pc.op, c); } }
    else if pc.HasPeer? { MarksSettled(s, t); HasPeerOk(s, pc.op, pc.peer, c); }
    else if pc.Opening? { OpeningOk(s, pc.op, c); }
    else if pc.Opened? { OpenedOk(s, pc.op, c); }
    else if pc.Moving? { MovingOk(s, pc, c); }
    else if pc.Finishing? { FinishingOk(s, pc, c); }
    else { QuietOk(s, pc, c); }
  }

  // ---------- the other threads ----------

  /** A transfer changes only the output stream's threshold state and frame count. */
  lemma MoveFrame(s: State, pc: Pc, c: Choice)
    requires Single(s) && pc.Moving? && WellFormed(s, pc)
    ensures var d := Data(s, pc, c);
            && d.dev == s.dev && d.ins == s.ins && Single(d)
            && d.outs[0].config == s.outs[0].config && d.outs[0].standby == s.outs[0].standby
            && d.outs[0].pcm == s.outs[0].pcm && d.outs[0].resampler == s.outs[0].resampler
  {
  }

  /** A step under the device lock leaves the routing and the activity of a stream alone when
      some other thread holds that stream's lock, except that the routing's SCO state persists. */
  lemma GuardedFrame(s: State, pc: Pc, c: Choice, x: Stream)
    requires Ready(s, pc) && StreamLock(x) !in Holds(pc) && Active(s.dev, x) && x.id == 0 && !pc.Moving?
    ensures var d := Data(s, pc, c);
            Active(d.dev, x) && IsSco(Routing(d.dev, x)) == IsSco(Routing(s.dev, x))
  {
  }

  lemma OthersKeep(s: State, pc: Pc, c: Choice, other: Pc)
    requires Ready(s, pc) && Ready(s, other) && Holds(pc) !! Holds(other)
    requires Single(Data(s, pc, c))
    ensures var d := Data(s, pc, c); PcOk(d.dev, d.outs[0], d.ins[0], other)
  {
    if pc.Moving? {
      MoveFrame(s, pc, c);
    } else if DevLock in Holds(other) || Quiet(pc) {
      if DevLock in Holds(other) { assert DevLock !in Holds(pc); }
      assert Quiet(pc);
    } else if other.Moving? {
      GuardedFrame(s, pc, c, other.op.s);
    }
  }

  /** Activity and standby mark of a stream still agree. */
  predicate Agrees(s: State, x: Stream)
    requires HasStream(s, x)
  {
    Active(s.dev, x) <==> !IsStandby(s, x)
  }

  /** Steps under the device lock keep the marks settled, but for a stream just opened. */
  lemma SettledAfter(s: State, pc: Pc, c: Choice, x: Stream)
    requires Ready(s, pc) && Settled(s) && !pc.Opened? && !pc.Moving? && HasStream(s, x)
    requires Single(Data(s, pc, c))
    ensures var d := Data(s, pc, c);
            || Agrees(d, x)
            || (pc.Opening? && NextPc(s, pc, c) == Opened(Transfer(x)) && Active(d.dev, x) && IsStandby(d, x))
  {
  }

  lemma SettledByClearing(s: State, op: Op, c: Choice, x: Stream)
    requires Ready(s, Opened(op)) && HasStream(s, x)
    requires x == op.s || Agrees(s, x)
    ensures Agrees(Data(s, Opened(op), c), x)
  {
  }

  lemma MarksUnderDev(s: State, t: nat, c: Choice, x: Stream)
    requires Inv(s) && Enabled(s, Go(t, c)) && HasStream(s, x) && DevLock in Holds(s.pcs[t])
    requires Single(Data(s, s.pcs[t], c))
    ensures MarksOk(Apply(s, Go(t, c)), x)
  {
    var pc := s.pcs[t];
    var d := Data(s, pc, c);
    assert s.owner[DevLock] == t && Ready(s, pc);
    assert MarksOk(s, OutS(0)) && MarksOk(s, InS(0));
    assert x == OutS(0) || x == InS(0);
    if pc.Opened? {
      SettledByClearing(s, pc.op, c, x);
    } else {
      MarksSettled(s, t);
      SettledAfter(s, pc, c, x);
    }
    assert || Agrees(d, x)
           || (s.owner[DevLock] == t && pc.Opening? && NextPc(s, pc, c) == Opened(Transfer(x)) && Active(d.dev, x));
  }

  /** The device lock's holder stays where it is and the stream keeps its mark. */
  lemma MarksFrame(s: State, s': State, x: Stream)
    requires HasStream(s, x) && HasStream(s', x) && MarksOk(s, x)
    requires Active(s'.dev, x) == Active(s.dev, x) && IsStandby(s', x) == IsStandby(s, x)
    requires DevLock in s.owner && s.owner[DevLock] in s.pcs ==>
               && DevLock in s'.owner && s'.owner[DevLock] == s.owner[DevLock]
               && s.owner[DevLock] in s'.pcs && s'.pcs[s.owner[DevLock]] == s.pcs[s.owner[DevLock]]
    ensures MarksOk(s', x)
  {
  }

  lemma MarksElsewhere(s: State, t: nat, c: Choice, x: Stream)
    requires Inv(s) && Enabled(s, Go(t, c)) && HasStream(s, x) && DevLock !in Holds(s.pcs[t])
    ensures MarksOk(Apply(s, Go(t, c)), x)
  {
    var pc := s.pcs[t];
    EffectMatches(s, pc, c);
    QuietFrame(s, pc, c);
    assert MarksOk(s, OutS(0)) && MarksOk(s, InS(0));
    assert x == OutS(0) || x == InS(0);
    MarksFrame(s, Apply(s, Go(t, c)), x);
  }

  /** Without the device lock, activity and standby marks do not change. */
  lemma QuietFrame(s: State, pc: Pc, c: Choice)
    requires Single(s) && WellFormed(s, pc) && DevLock !in Holds(pc)
    ensures var d := Data(s, pc, c);
            && d.dev == s.dev && d.ins == s.ins && Single(d) && d.outs[0].standby == s.outs[0].standby
  {
    if pc.Moving? { MoveFrame(s, pc, c); }
  }

  // ---------- runs ----------

  lemma PcsKeep(s: State, t: nat, c: Choice, u: nat)
    requires Inv(s) && Enabled(s, Go(t, c)) && u in s.pcs
    ensures var d := Data(s, s.pcs[t], c);
            Single(d) && PcOk(d.dev, d.outs[0], d.ins[0], if u == t then NextPc(s, s.pcs[t], c) else s.pcs[u])
  {
    OwnStep(s, t, c);
    if u != t {
      assert Ready(s, s.pcs[u]) && Ready(s, s.pcs[t]);
      Exclusive(s, t, u);
      OthersKeep(s, s.pcs[t], c, s.pcs[u]);
    }
  }

  lemma GoKeepsInv(s: State, t: nat, c: Choice)
    requires Inv(s) && Enabled(s, Go(t, c))
    ensures Inv(Apply(s, Go(t, c)))
  {
    var s' := Apply(s, Go(t, c));
    StepKeepsLocks(s, Go(t, c));
    OwnStep(s, t, c);
    forall u | u in s'.pcs ensures PcOk(s'.dev, s'.outs[0], s'.ins[0], s'.pcs[u]) { PcsKeep(s, t, c, u); }
    if DevLock in Holds(s.pcs[t]) {
      MarksUnderDev(s, t, c, OutS(0));
      MarksUnderDev(s, t, c, InS(0));
    } else {
      MarksElsewhere(s, t, c, OutS(0));
      MarksElsewhere(s, t, c, InS(0));
    }
  }

  lemma BeginKeepsInv(s: State, t: nat, op: Op)
    requires Inv(s) && Enabled(s, Begin(t, op))
    ensures Inv(Apply(s, Begin(t, op)))
  {
    StepKeepsLocks(s, Begin(t, op));
    var s' := Apply(s, Begin(t, op));
    assert MarksOk(s, OutS(0)) && MarksOk(s, InS(0));
    forall u | u in s'.pcs ensures PcOk(s'.dev, s'.outs[0], s'.ins[0], s'.pcs[u]) {
      if u != t { assert PcOk(s.dev, s.outs[0], s.ins[0], s.pcs[u]); }
    }
  }

  lemma ScreenPc(d: Dev, o: Out, i: In, pc: Pc, off: bool)
    requires PcOk(d, o, i, pc)
    ensures PcOk(d.(screenOff := off), o, i, pc)
  {
  }

  lemma ScreenKeepsInv(s: State, off: bool)
    requires Inv(s)
    ensures Inv(Apply(s, Screen(off)))
  {
    StepKeepsLocks(s, Screen(off));
    var s' := Apply(s, Screen(off));
    assert s'.pcs == s.pcs && s'.outs == s.outs && s'.ins == s.ins;
    MarksFrame(s, s', OutS(0));
    MarksFrame(s, s', InS(0));
    assert Core(s'.dev, s'.outs[0], s'.ins[0]);
    forall u | u in s'.pcs ensures PcOk(s'.dev, s'.outs[0], s'.ins[0], s'.pcs[u]) {
      ScreenPc(s.dev, s.outs[0], s.ins[0], s.pcs[u], off);
    }
  }

  lemma StepKeepsInv(s: State, step: Step)
    requires Inv(s) && Enabled(s, step)
    ensures Inv(Apply(s, step))
  {
    match step
    case Begin(t, op) => BeginKeepsInv(s, t, op);
    case Screen(off) => ScreenKeepsInv(s, off);
    case Go(t, c) => GoKeepsInv(s, t, c);
  }

  lemma {:induction false} RunKeepsInv(s: State, steps: seq<Step>)
    requires Init(s) && Single(s) && Run(s, steps).Some?
    ensures Inv(Run(s, steps).value)
  {
    if steps == [] {
      InitLocks(s);
    } else {
      RunKeepsInv(s, steps[..|steps| - 1]);
      StepKeepsInv(Run(s, steps[..|steps| - 1]).value, steps[|steps| - 1]);
    }
  }

  /** Whenever the device lock is free, each stream is out of standby exactly when it is the
      active one, and if both are, their PCMs are different and share one group of rates. */
  lemma FreeDeviceIsConsistent(s0: State, steps: seq<Step>)
    requires Init(s0) && Single(s0) && Run(s0, steps).Some?
    ensures var s := Run(s0, steps).value;
            DevLock !in s.owner ==>
              && Single(s)
              && Marks(s.dev, s.outs[0], s.ins[0])
              && (!s.outs[0].standby && !s.ins[0].standby ==>
                    && s.outs[0].pcm != s.ins[0].pcm
                    && s.outs[0].config.PcmConfig? && s.ins[0].config.PcmConfig?
                    && SameGroup(s.outs[0].config.rate, s.ins[0].config.rate))
  {
    RunKeepsInv(s0, steps);
  }

  /** A stream that is out of standby has an open PCM, the SCO one exactly when its routing has
      SCO bits, and a resampler exactly when the rates differ; no other PCM is open. */
  lemma OpenStreamsMatchRouting(s0: State, steps: seq<Step>)
    requires Init(s0) && Single(s0) && Run(s0, steps).Some?
    ensures var s := Run(s0, steps).value;
            && Single(s)
            && var o, i := s.outs[0], s.ins[0];
               && (!o.standby ==> && o.pcm.Some? && o.pcm.value in s.dev.pcms && o.config.PcmConfig?
                                  && (o.config == CONFIG_SCO <==> IsSco(s.dev.outDevice))
                                  && (o.resampler <==> o.config.rate != OUT_RATE))
               && (!i.standby ==> && i.pcm.Some? && i.pcm.value in s.dev.pcms && i.config.PcmConfig?
                                  && (i.config == CONFIG_SCO <==> IsSco(s.dev.inDevice))
                                  && (i.resampler <==> i.config.rate != i.requestedRate))
               && (DevLock !in s.owner ==>
                     s.dev.pcms ==
                     (if o.standby then {} else {o.pcm.value}) + (if i.standby then {} else {i.pcm.value}))
  {
    RunKeepsInv(s0, steps);
  }

  /** After the device lock is dropped, a thread in its transfer still has an open stream whose
      configuration agrees with the SCO flag it read, which is still the routing's. */
  lemma TransferActsOnOpenPcm(s0: State, steps: seq<Step>, t: nat)
    requires Init(s0) && Single(s0) && Run(s0, steps).Some?
    requires var s := Run(s0, steps).value; t in s.pcs && s.pcs[t].Moving?
    ensures var s := Run(s0, steps).value;
            var pc := s.pcs[t];
            && pc.op.Transfer? && Single(s) && HasStream(s, pc.op.s)
            && !IsStandby(s, pc.op.s) && Active(s.dev, pc.op.s)
            && (pc.sco <==> Config(s, pc.op.s) == CONFIG_SCO) && (pc.sco <==> IsSco(Routing(s.dev, pc.op.s)))
            && (match pc.op.s
                case OutS(_) =>
                  var o := s.outs[0];
                  && o.pcm.Some? && o.pcm.value in s.dev.pcms
                  && (o.resampler <==> o.config.PcmConfig? && o.config.rate != OUT_RATE)
                case InS(_) =>
                  var i := s.ins[0];
                  && i.pcm.Some? && i.pcm.value in s.dev.pcms
                  && (i.resampler <==> i.config.PcmConfig? && i.config.rate != i.requestedRate))
  {
    RunKeepsInv(s0, steps);
    var s := Run(s0, steps).value;
    assert PcOk(s.dev, s.outs[0], s.ins[0], s.pcs[t]) && WellFormed(s, s.pcs[t]);
    assert Own(s.pcs[t].op) in Holds(s.pcs[t]);
    assert MarksOk(s, OutS(0)) && MarksOk(s, InS(0));
    if IsStandby(s, s.pcs[t].op.s) {
      var u := s.owner[DevLock];
      assert u != t;
      Exclusive(s, t, u);
    }
  }

  // ---------- the write threshold over runs ----------

  /** A non-SCO write in this step has a fill level that was read, or is off its target. */
  predicate Measured(s: State, step: Step) {
    step.Go? && step.t in s.pcs && s.pcs[step.t].Moving? && WellFormed(s, s.pcs[step.t]) ==>
      var pc := s.pcs[step.t];
      pc.op.s.OutS? && !pc.sco ==>
        var o := s.outs[pc.op.s.id];
        step.c.fill >= 0 || (!o.bufferType.Unknown? && o.threshold != if pc.wanted.Long? then 4096 else 1024)
  }

  lemma QuietKeepsThreshold(s: State, pc: Pc, c: Choice)
    requires Single(s) && WellFormed(s, pc) && Controlled(s.outs[0]) && !(pc.Moving? && pc.op.s.OutS? && !pc.sco)
    requires Single(Data(s, pc, c))
    ensures Controlled(Data(s, pc, c).outs[0])
  {
  }

  lemma StepKeepsThreshold(s: State, step: Step)
    requires Inv(s) && Enabled(s, step) && Controlled(s.outs[0])
    ensures Single(Apply(s, step)) && (Controlled(Apply(s, step).outs[0]) <==> Measured(s, step))
  {
    StepKeepsInv(s, step);
    if step.Go? {
      var pc := s.pcs[step.t];
      if pc.Moving? && pc.op.s.OutS? && !pc.sco {
        assert PcOk(s.dev, s.outs[0], s.ins[0], pc);
        ThrottledIsControlled(s.outs[0], pc.wanted, step.c.fill);
      } else {
        OwnStep(s, step.t, step.c);
        QuietKeepsThreshold(s, pc, step.c);
      }
    }
  }

  /** The threshold is in range in every state of the run. */
  ghost predicate AlwaysInRange(s0: State, steps: seq<Step>)
    requires Run(s0, steps).Some?
  {
    && 0 in Run(s0, steps).value.outs && Controlled(Run(s0, steps).value.outs[0])
    && (steps != [] ==> AlwaysInRange(s0, steps[..|steps| - 1]))
  }

  /** Every write of the run is measured. */
  ghost predicate AllMeasured(s0: State, steps: seq<Step>)
    requires Run(s0, steps).Some?
  {
    steps != [] ==>
      var init := steps[..|steps| - 1];
      AllMeasured(s0, init) && Measured(Run(s0, init).value, steps[|steps| - 1])
  }

  /** Over every interleaving: once a non-SCO write has set the buffer type, the target is 1024 or
      4096 and the threshold lies in [640, 4096], at all times, if and only if no write at its
      target went without a successful timestamp read and found a negative value instead. */
  lemma {:induction false} ThresholdInRangeExactlyWhen(s0: State, steps: seq<Step>)
    requires Init(s0) && Single(s0) && Run(s0, steps).Some?
    ensures AlwaysInRange(s0, steps) <==> AllMeasured(s0, steps)
  {
    RunKeepsInv(s0, steps);
    if steps != [] {
      var init := steps[..|steps| - 1];
      ThresholdInRangeExactlyWhen(s0, init);
      RunKeepsInv(s0, init);
      if AlwaysInRange(s0, init) { StepKeepsThreshold(Run(s0, init).value, steps[|steps| - 1]); }
    }
  }

  /** A stream that has a buffer type never changes its threshold abruptly: a step moves it by at
      most 128, unless it is a write that finds the threshold at the target and more than 1024
      frames missing, fewer than 3072 queued.  Only a write moves it. */
  lemma ThresholdMovesInSmallSteps(s0: State, steps: seq<Step>, step: Step)
    requires Init(s0) && Single(s0) && Run(s0, steps).Some? && Enabled(Run(s0, steps).value, step)
    requires 0 in Run(s0, steps).value.outs && Controlled(Run(s0, steps).value.outs[0])
    ensures var s, s' := Run(s0, steps).value, Apply(Run(s0, steps).value, step);
            && Single(s')
            && var o, o' := s.outs[0], s'.outs[0];
               && (!o.bufferType.Unknown? ==>
                     || -128 <= o'.threshold - o.threshold <= 128
                     || (step.Go? && o.threshold == o'.target && o'.target - step.c.fill > 1024 && step.c.fill < 3072))
               && (o'.threshold != o.threshold ==> step.Go? && s.pcs[step.t].Moving? && !s.pcs[step.t].sco)
  {
    var s := Run(s0, steps).value;
    RunKeepsInv(s0, steps);
    StepKeepsInv(s, step);
    if step.Go? {
      var pc := s.pcs[step.t];
      if pc.Moving? && pc.op.s.OutS? && !pc.sco {
        assert PcOk(s.dev, s.outs[0], s.ins[0], pc);
        WriteMeans(s.outs[0], pc.wanted, step.c.fill);
      } else {
        OwnStep(s, step.t, step.c);
        QuietLeavesThreshold(s, pc, step.c);
      }
    }
  }

  lemma QuietLeavesThreshold(s: State, pc: Pc, c: Choice)
    requires Single(s) && WellFormed(s, pc) && !(pc.Moving? && pc.op.s.OutS? && !pc.sco) && Single(Data(s, pc, c))
    ensures Data(s, pc, c).outs[0].threshold == s.outs[0].threshold
  {
  }

  // ---------- who closes a stream ----------

  /** The step puts stream `x` into standby on its own behalf, or closes it to make room. */
  predicate Closes(s: State, step: Step, x: Stream) {
    && step.Go? && step.t in s.pcs
    && match s.pcs[step.t]
       case HasBoth(Standby(y)) => y == x
       case HasBoth(Route(y, mask)) => y == x && mask.sco != Routing(s.dev, x).sco
       case HasPeer(Transfer(y), p) =>
         p == x && y.OutS? != x.OutS? && (s.dev.outDevice.sco != 0) != (s.dev.inDevice.sco != 0)
       case _ => false
  }

  /** Over every interleaving, an active stream stops being active exactly by its own standby, by a
      re-routing of its own that changes the SCO bits, or by the start of the other stream on a PCM
      of another rate group, one being routed to SCO and the other not.  So a stream of a
      compatible rate stays open. */
  lemma ActivityLostExactlyWhen(s0: State, steps: seq<Step>, step: Step, x: Stream)
    requires Init(s0) && Single(s0) && Run(s0, steps).Some? && Enabled(Run(s0, steps).value, step)
    requires Active(Run(s0, steps).value.dev, x)
    ensures var s := Run(s0, steps).value; !Active(Apply(s, step).dev, x) <==> Closes(s, step, x)
  {
    var s := Run(s0, steps).value;
    RunKeepsInv(s0, steps);
    if step.Go? {
      var pc := s.pcs[step.t];
      assert Ready(s, pc);
      if pc.HasBoth? || pc.HasPeer? {
        MarksSettled(s, step.t);
        if pc.HasBoth? { OwnOrOther(s, pc.op, step.c, x); } else { PeerMakesRoom(s, pc.op, pc.peer, step.c, x); }
      } else {
        OthersStayActive(s, pc, step.c, x);
      }
    }
  }

  lemma OwnOrOther(s: State, op: Op, c: Choice, x: Stream)
    requires Ready(s, HasBoth(op)) && Settled(s) && Active(s.dev, x)
    ensures !Active(Data(s, HasBoth(op), c).dev, x) <==> !op.Transfer? && op.s == x
  {
  }

  lemma PeerMakesRoom(s: State, op: Op, p: Stream, c: Choice, x: Stream)
    requires Ready(s, HasPeer(op, p)) && Settled(s) && Active(s.dev, x)
    ensures !Active(Data(s, HasPeer(op, p), c).dev, x) <==>
            p == x && (s.dev.outDevice.sco != 0) != (s.dev.inDevice.sco != 0)
  {
  }

  lemma OthersStayActive(s: State, pc: Pc, c: Choice, x: Stream)
    requires Ready(s, pc) && Active(s.dev, x) && !pc.HasBoth? && !pc.HasPeer?
    ensures Active(Data(s, pc, c).dev, x)
  {
  }

  // ---------- the position query ----------

  /** A position query finds an open PCM of its own exactly when the stream is not in standby; in
      standby whatever PCM is open is the input stream's. */
  lemma QueryFindsPcmExactlyWhen(s0: State, steps: seq<Step>, t: nat)
    requires Init(s0) && Single(s0) && Run(s0, steps).Some?
    requires var s := Run(s0, steps).value; t in s.pcs && s.pcs[t] == HasAlone(Position(OutS(0)))
    ensures var s := Run(s0, steps).value;
            && Single(s)
            && (s.dev.activeOut == Some(0) <==> !s.outs[0].standby)
            && (!s.outs[0].standby ==> && s.outs[0].pcm.Some? && s.outs[0].pcm.value in s.dev.pcms
                                       && s.outs[0].config == ChosenOut(s.dev))
            && (s.outs[0].standby ==>
                  forall p :: p in s.dev.pcms ==> s.dev.activeIn == Some(0) && s.ins[0].pcm == Some(p))
  {
    RunKeepsInv(s0, steps);
    var s := Run(s0, steps).value;
    assert StreamLock(OutS(0)) in Holds(s.pcs[t]);
    assert MarksOk(s, OutS(0));
    if s.dev.activeOut == Some(0) && s.outs[0].standby {
      var u := s.owner[DevLock];
      assert u != t;
      Exclusive(s, t, u);
    }
  }

  const IDLE_DEVICE := Dev(SPEAKER, BUILTIN_MIC, false, None, None, {})

  lemma Then(s0: State, steps: seq<Step>, s: State, step: Step) returns (s': State)
    requires Run(s0, steps) == Some(s) && Enabled(s, step)
    ensures s' == Apply(s, step) && Run(s0, steps + [step]) == Some(s')
  {
    s' := Apply(s, step);
    assert (steps + [step])[..|steps|] == steps;
  }

  /** In standby the query does run on no PCM at all: nothing in out_get_presentation_position
      asks whether the stream is open. */
  lemma QueryWithoutPcm() returns (s0: State, steps: seq<Step>)
    ensures Init(s0) && Single(s0) && Run(s0, steps).Some?
    ensures var s := Run(s0, steps).value;
            0 in s.pcs && s.pcs[0] == HasAlone(Position(OutS(0))) && 0 in s.outs && s.outs[0].pcm == None
  {
    s0 := State(IDLE_DEVICE, map[0 := InitOut()], map[0 := InitIn(44100, false)], map[], map[0 := Idle]);
    var query := Position(OutS(0));
    var s1 := Then(s0, [], s0, Begin(0, query));
    var c := Choice(true, 0, 0, 0);
    var s2 := Then(s0, [] + [Begin(0, query)], s1, Go(0, c));
    steps := [] + [Begin(0, query)] + [Go(0, c)];
  }
}
