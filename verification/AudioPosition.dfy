/** The presentation position of the output stream over its whole life: writes, playback, failed
    writes and standby/restart cycles.  The kernel's buffer is a ledger that runs beside the
    audio HAL's machine and follows what the machine does to its PCM. */
module AudioPosition {
  import opened Options
  import opened AudioState
  import opened AudioMachine
  import opened AudioInvariant

  const TWO_63: int := 0x8000_0000_0000_0000
  const TWO_64: int := 0x1_0000_0000_0000_0000

  /** The answer for a position: a refusal when a signed 64-bit count cannot hold it. */
  function Presented(position: int): Option<nat> {
    if 0 <= position < TWO_63 then Some(position) else None
  }

  /** The arithmetic of out_get_presentation_position: an unsigned 64-bit expression, then
      reinterpreted as signed.  The result is exactly the presented position, for every `avail`,
      until the frame count itself is about to leave 64 bits. */
  method ComputePosition(written: nat, bufferFrames: nat, avail: nat) returns (frames: Option<nat>)
    requires written < TWO_64 && bufferFrames < 0x1_0000_0000 && avail < 0x1_0000_0000
    ensures var position := written - bufferFrames + avail;
            && (position < 0 ==> frames.None?)
            && (0 <= position < 0x8000_0000_0000_0000 ==> frames == Some(position))
            && (0x8000_0000_0000_0000 <= position < 0x1_0000_0000_0000_0000 ==> frames.None?)
            && (0x1_0000_0000_0000_0000 <= position ==> frames == Some(position - 0x1_0000_0000_0000_0000))
  {
    var unsigned := (written - bufferFrames) % TWO_64;
    unsigned := (unsigned + avail) % TWO_64;
    assert unsigned == (written - bufferFrames + avail) % TWO_64;
    var signed := if unsigned < TWO_63 then unsigned else unsigned - TWO_64;
    frames := if signed >= 0 then Some(signed) else None;
  }

  // ---------- the kernel's buffer ----------

  /** `gone` counts the frames that have left the kernel buffer, played or dropped. */
  datatype Ledger = Ledger(open: bool, capacity: nat, queued: nat, gone: nat)

  /** `Write` is a pcm_write that accepts `frames` frames after `left` others have left the buffer;
      a failed one accepts none. */
  datatype Event =
    | Start(capacity: nat)
    | Write(frames: nat, left: nat)
    | Play(frames: nat)
    | Stop
    | Nothing

  const EMPTY := Ledger(false, 0, 0, 0)

  /** What the kernel can do: the buffer never holds more than its size. */
  predicate Possible(k: Ledger, e: Event) {
    match e
    case Write(frames, left) => k.open && 0 <= k.queued + frames - left <= k.capacity
    case Play(frames) => k.open && frames <= k.queued
    case _ => true
  }

  /** Opening a PCM gives an empty buffer; closing it drops what is queued. */
  function After(k: Ledger, e: Event): Ledger
    requires Possible(k, e)
  {
    match e
    case Start(capacity) => Ledger(true, capacity, 0, k.gone + k.queued)
    case Write(frames, left) => k.(queued := k.queued + frames - left, gone := k.gone + left)
    case Play(frames) => k.(queued := k.queued - frames, gone := k.gone + frames)
    case Stop => Ledger(false, k.capacity, 0, k.gone + k.queued)
    case Nothing => k
  }

  // ---------- the machine with its buffer ----------

  datatype Joint = Joint(hal: State, kernel: Ledger)

  /** A step of the machine, during which `left` frames leave the buffer if it is a write; or
      playback goes on. */
  datatype JointStep = Hal(step: Step, left: nat) | Drain(frames: nat)

  function Size(config: PcmConfig): nat { if config.PcmConfig? then config.periodSize * config.periodCount else 0 }

  predicate Writes(s: State, step: Step) {
    step.Go? && step.t in s.pcs && s.pcs[step.t].Moving? && s.pcs[step.t].op.Transfer? && s.pcs[step.t].op.s.OutS?
  }

  /** What a step of the machine is to the output PCM's buffer. */
  function Seen(s: State, s': State, step: Step, left: nat): Event {
    if s.dev.activeOut.None? && s'.dev.activeOut.Some? then Start(if 0 in s'.outs then Size(s'.outs[0].config) else 0)
    else if s.dev.activeOut.Some? && s'.dev.activeOut.None? then Stop
    else if Writes(s, step) then Write(step.c.frames, left)
    else Nothing
  }

  predicate CanStep(j: Joint, step: JointStep) {
    match step
    case Hal(m, left) => Enabled(j.hal, m) && Possible(j.kernel, Seen(j.hal, Apply(j.hal, m), m, left))
    case Drain(frames) => Possible(j.kernel, Play(frames))
  }

  function Next(j: Joint, step: JointStep): Joint
    requires CanStep(j, step)
  {
    match step
    case Hal(m, left) => Joint(Apply(j.hal, m), After(j.kernel, Seen(j.hal, Apply(j.hal, m), m, left)))
    case Drain(frames) => j.(kernel := After(j.kernel, Play(frames)))
  }

  function JointRun(j: Joint, steps: seq<JointStep>): Option<Joint> {
    if steps == [] then Some(j)
    else
      var before := JointRun(j, steps[..|steps| - 1]);
      if before.Some? && CanStep(before.value, steps[|steps| - 1])
      then Some(Next(before.value, steps[|steps| - 1]))
      else None
  }

  ghost predicate JointInit(j: Joint) { Init(j.hal) && Single(j.hal) && j.kernel == EMPTY }

  /** Every frame the stream has counted as written is in the buffer or gone; the PCM is open
      exactly while the stream is active, with a buffer of the size its configuration says. */
  ghost predicate Accounted(s: State, k: Ledger)
    requires Single(s)
  {
    && s.outs[0].written == k.queued + k.gone
    && (k.open <==> s.dev.activeOut.Some?)
    && (k.open ==> k.capacity == Size(s.outs[0].config) && k.queued <= k.capacity)
    && (!k.open ==> k.queued == 0)
  }

  // ---------- what the machine's steps do to the stream ----------

  /** A write counts its frames and touches neither activity nor configuration. */
  lemma WriteEffect(s: State, pc: Pc, c: Choice)
    requires Single(s) && WellFormed(s, pc) && pc.Moving?
    ensures var d := Data(s, pc, c);
            && d.dev == s.dev && Single(d) && d.outs[0].config == s.outs[0].config
            && d.outs[0].written == s.outs[0].written + if pc.op.s.OutS? then c.frames else 0
  {
  }

  /** No other step counts frames, and none changes the configuration of an active stream. */
  lemma OtherEffect(s: State, pc: Pc, c: Choice)
    requires Single(s) && WellFormed(s, pc) && !pc.Moving? && Single(Data(s, pc, c))
    requires pc.HasBoth? && s.dev.activeOut.Some? ==> !s.outs[0].standby
    ensures var d := Data(s, pc, c);
            && d.outs[0].written == s.outs[0].written
            && (s.dev.activeOut.Some? ==> d.outs[0].config == s.outs[0].config)
  {
  }

  lemma GoEffect(s: State, t: nat, c: Choice)
    requires Inv(s) && Enabled(s, Go(t, c)) && Single(Apply(s, Go(t, c)))
    ensures var s' := Apply(s, Go(t, c));
            && s'.outs[0].written == s.outs[0].written + (if Writes(s, Go(t, c)) then c.frames else 0)
            && (s.dev.activeOut.Some? ==> s'.outs[0].config == s.outs[0].config)
            && (Writes(s, Go(t, c)) ==> s.dev.activeOut.Some? && s'.dev == s.dev)
  {
    var pc := s.pcs[t];
    assert WellFormed(s, pc) && PcOk(s.dev, s.outs[0], s.ins[0], pc);
    if pc.Moving? {
      WriteEffect(s, pc, c);
    } else {
      if pc.HasBoth? { MarksSettled(s, t); }
      OtherEffect(s, pc, c);
    }
  }

  lemma StepEffect(s: State, step: Step)
    requires Inv(s) && Enabled(s, step) && Single(Apply(s, step))
    ensures var s' := Apply(s, step);
            && s'.outs[0].written == s.outs[0].written + (if Writes(s, step) then step.c.frames else 0)
            && (s.dev.activeOut.Some? ==> s'.outs[0].config == s.outs[0].config)
            && (Writes(s, step) ==> s.dev.activeOut.Some? && s'.dev == s.dev)
  {
    if step.Go? { GoEffect(s, step.t, step.c); }
  }

  /** The ledger follows the stream. */
  lemma FollowsStream(s: State, s': State, step: Step, left: nat, k: Ledger)
    requires Single(s) && Single(s') && Accounted(s, k) && Possible(k, Seen(s, s', step, left))
    requires s'.outs[0].written == s.outs[0].written + (if Writes(s, step) then step.c.frames else 0)
    requires s.dev.activeOut.Some? ==> s'.outs[0].config == s.outs[0].config
    requires Writes(s, step) ==> s.dev.activeOut.Some? && s'.dev == s.dev
    ensures Accounted(s', After(k, Seen(s, s', step, left)))
  {
  }

  lemma {:induction false} JointKeeps(j: Joint, steps: seq<JointStep>)
    requires JointInit(j) && JointRun(j, steps).Some?
    ensures var e := JointRun(j, steps).value; Inv(e.hal) && Accounted(e.hal, e.kernel)
  {
    if steps == [] {
      RunKeepsInv(j.hal, []);
    } else {
      JointKeeps(j, steps[..|steps| - 1]);
      StepAccounted(JointRun(j, steps[..|steps| - 1]).value, steps[|steps| - 1]);
    }
  }

  lemma StepAccounted(e: Joint, step: JointStep)
    requires Inv(e.hal) && Accounted(e.hal, e.kernel) && CanStep(e, step)
    ensures Inv(Next(e, step).hal) && Accounted(Next(e, step).hal, Next(e, step).kernel)
  {
    match step
    case Hal(m, left) =>
      var s' := Apply(e.hal, m);
      StepKeepsInv(e.hal, m);
      StepEffect(e.hal, m);
      FollowsStream(e.hal, s', m, left, e.kernel);
    case Drain(frames) => DrainAccounted(e.hal, e.kernel, frames);
  }

  lemma DrainAccounted(s: State, k: Ledger, frames: nat)
    requires Single(s) && Accounted(s, k) && Possible(k, Play(frames))
    ensures Accounted(s, After(k, Play(frames)))
  {
  }

  /** Frames are conserved over every interleaving: each frame in the stream's own count is queued
      in the kernel or gone; out of standby the PCM is open. */
  lemma {:induction false} FramesConserved(j: Joint, steps: seq<JointStep>)
    requires JointInit(j) && JointRun(j, steps).Some?
    ensures var e := JointRun(j, steps).value;
            Single(e.hal) && Accounted(e.hal, e.kernel) && (!e.hal.outs[0].standby ==> e.kernel.open)
  {
    JointKeeps(j, steps);
    assert MarksOk(JointRun(j, steps).value.hal, OutS(0));
  }

  /** What the query computes from the stream's count and the kernel's answer, the free space. */
  function Reported(j: Joint): Option<nat>
    requires 0 in j.hal.outs
  {
    var o := j.hal.outs[0];
    Presented(o.written - Size(o.config) + (Size(o.config) - j.kernel.queued))
  }

  /** Every query made while the stream is open is answered with the number of frames that have
      left the buffer, and never refused, as long as fewer than 2^63 frames were written. */
  lemma {:induction false} PositionCountsGoneFrames(j: Joint, steps: seq<JointStep>)
    requires JointInit(j) && JointRun(j, steps).Some?
    ensures var e := JointRun(j, steps).value;
            && 0 in e.hal.outs
            && (e.hal.outs[0].written < TWO_63 ==> Reported(e) == Some(e.kernel.gone))
            && (!e.hal.outs[0].standby ==>
                  e.kernel.open && e.kernel.queued <= Size(e.hal.outs[0].config) == e.kernel.capacity)
  {
    FramesConserved(j, steps);
    var e := JointRun(j, steps).value;
    assert e.hal.outs[0].written - e.kernel.queued == e.kernel.gone;
    SizeCancels(e.hal.outs[0].written, Size(e.hal.outs[0].config), e.kernel.queued);
  }

  lemma SizeCancels(written: nat, size: nat, queued: nat)
    ensures Presented(written - size + (size - queued)) == Presented(written - queued)
  {
  }

  lemma GoneGrows(j: Joint, step: JointStep)
    requires CanStep(j, step)
    ensures j.kernel.gone <= Next(j, step).kernel.gone
  {
  }

  lemma {:induction false} CountsOnlyGrow(j: Joint, steps: seq<JointStep>, n: nat)
    requires JointInit(j) && n <= |steps| && JointRun(j, steps).Some?
    ensures JointRun(j, steps[..n]).Some?
    ensures var a, b := JointRun(j, steps[..n]).value, JointRun(j, steps).value;
            && 0 in a.hal.outs && 0 in b.hal.outs
            && a.kernel.gone <= b.kernel.gone && a.hal.outs[0].written <= b.hal.outs[0].written
  {
    FramesConserved(j, steps);
    if n == |steps| {
      assert steps[..n] == steps;
    } else {
      var init, step := steps[..|steps| - 1], steps[|steps| - 1];
      CountsOnlyGrow(j, init, n);
      assert init[..n] == steps[..n];
      JointKeeps(j, init);
      var e := JointRun(j, init).value;
      GoneGrows(e, step);
      if step.Hal? {
        StepKeepsInv(e.hal, step.step);
        StepEffect(e.hal, step.step);
      }
    }
  }

  /** The reported position never decreases over a run, across standby and restart too. */
  lemma {:induction false} PositionNeverDecreases(j: Joint, steps: seq<JointStep>, n: nat)
    requires JointInit(j) && n <= |steps| && JointRun(j, steps).Some?
    requires 0 in JointRun(j, steps).value.hal.outs && JointRun(j, steps).value.hal.outs[0].written < TWO_63
    ensures JointRun(j, steps[..n]).Some?
    ensures var earlier, later := JointRun(j, steps[..n]).value, JointRun(j, steps).value;
            && 0 in earlier.hal.outs
            && Reported(earlier).Some? && Reported(later).Some? && Reported(earlier).value <= Reported(later).value
  {
    CountsOnlyGrow(j, steps, n);
    PositionCountsGoneFrames(j, steps);
    PositionCountsGoneFrames(j, steps[..n]);
  }
}
