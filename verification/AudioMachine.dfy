/** Every interleaving of the audio HAL's entry points, for any number of threads and streams.
    A thread runs one entry point at a time; each step takes one lock, drops one lock, or acts
    on data guarded by locks it holds. */
module AudioMachine {
  import opened Options
  import opened AudioState
  import opened AudioThreshold

  datatype Stream = OutS(id: nat) | InS(id: nat)
  datatype Lock = DevLock | StreamLock(s: Stream)

  /** The entry points: standby (also run when a stream is closed), routing by set_parameters,
      write or read, those that take the device lock alone (get_latency, the orientation
      branch of adev_set_parameters), and the presentation position. */
  datatype Op =
    | Standby(s: Stream)
    | Route(s: Stream, mask: Mask)
    | Transfer(s: Stream)
    | DeviceOnly
    | Position(s: Stream)

  /** Where a thread is inside its entry point. */
  datatype Pc =
    | Idle
    | WantDev(op: Op)
    | HasDev(op: Op)                                // device lock just taken
    | WantOwn(op: Op)
    | HasBoth(op: Op)                               // device lock and own stream's lock
    | WantPeer(op: Op, peer: Stream)                // start_*_stream, before the other stream's lock
    | HasPeer(op: Op, peer: Stream)
    | Opening(op: Op)                               // before pcm_open
    | Opened(op: Op)                                // pcm_open succeeded, stream still marked standby
    | Snapshot(op: Op)                              // before the device lock is dropped
    | Failed(op: Op)                                // pcm_open failed, device lock still held
    | Moving(op: Op, sco: bool, wanted: BufferType) // transfer under the stream lock alone
    | Exiting(op: Op)                               // stream lock alone, about to drop it
    | Finishing(op: Op, apply: bool)                // device lock alone, `apply`: store the new mask
    | WantAlone(op: Op)
    | HasAlone(op: Op)                              // position query under the stream lock alone

  datatype State = State(dev: Dev, outs: map<nat, Out>, ins: map<nat, In>,
                         owner: map<Lock, nat>, pcs: map<nat, Pc>)

  /** What a step leaves to the environment: whether pcm_open succeeds and with which PCM; the
      last fill level read, or whatever the variable holds if no read succeeded; and how many
      frames pcm_write accepted. */
  datatype Choice = Choice(ready: bool, pcm: nat, fill: int, frames: nat)

  datatype Step = Begin(t: nat, op: Op) | Go(t: nat, c: Choice) | Screen(off: bool)

  function Own(op: Op): Lock
    requires !op.DeviceOnly?
  {
    StreamLock(op.s)
  }

  predicate HasStream(s: State, x: Stream) {
    match x case OutS(i) => i in s.outs case InS(i) => i in s.ins
  }

  predicate Active(d: Dev, x: Stream) {
    match x case OutS(i) => d.activeOut == Some(i) case InS(i) => d.activeIn == Some(i)
  }

  /** The stream of the other kind that a starting stream must look at. */
  function Peer(d: Dev, x: Stream): Option<Stream> {
    match x
    case OutS(_) => if d.activeIn.Some? then Some(InS(d.activeIn.value)) else None
    case InS(_) => if d.activeOut.Some? then Some(OutS(d.activeOut.value)) else None
  }

  predicate IsStandby(s: State, x: Stream)
    requires HasStream(s, x)
  {
    match x case OutS(i) => s.outs[i].standby case InS(i) => s.ins[i].standby
  }

  function Config(s: State, x: Stream): PcmConfig
    requires HasStream(s, x)
  {
    match x case OutS(i) => s.outs[i].config case InS(i) => s.ins[i].config
  }

  function Routing(d: Dev, x: Stream): Mask { if x.OutS? then d.outDevice else d.inDevice }

  function WithMask(d: Dev, x: Stream, mask: Mask): Dev {
    if x.OutS? then d.(outDevice := mask) else d.(inDevice := mask)
  }

  // ---------- the steps ----------

  function PutStandby(s: State, x: Stream): State
    requires HasStream(s, x)
  {
    match x
    case OutS(i) => var (d, o) := OutStandby(s.dev, s.outs[i]); s.(dev := d, outs := s.outs[i := o])
    case InS(i) => var (d, n) := InStandby(s.dev, s.ins[i]); s.(dev := d, ins := s.ins[i := n])
  }

  function Select(s: State, x: Stream): State
    requires HasStream(s, x)
  {
    match x
    case OutS(i) => s.(outs := s.outs[i := SelectOut(s.dev, s.outs[i])])
    case InS(i) => s.(ins := s.ins[i := SelectIn(s.dev, s.ins[i])])
  }

  function Open(s: State, x: Stream, c: Choice): State
    requires HasStream(s, x) && Config(s, x).PcmConfig?
  {
    match x
    case OutS(i) => var (d, o) := OpenOut(s.dev, s.outs[i], i, c.pcm, c.ready); s.(dev := d, outs := s.outs[i := o])
    case InS(i) => var (d, n) := OpenIn(s.dev, s.ins[i], i, c.pcm, c.ready); s.(dev := d, ins := s.ins[i := n])
  }

  function ClearStandby(s: State, x: Stream): State
    requires HasStream(s, x)
  {
    match x
    case OutS(i) => s.(outs := s.outs[i := s.outs[i].(standby := false)])
    case InS(i) => s.(ins := s.ins[i := s.ins[i].(standby := false)])
  }

  /** The transfer: an output stream adapts its threshold unless routed to SCO and counts the
      frames that pcm_write accepted; an input stream keeps its state here. */
  function Move(s: State, x: Stream, sco: bool, wanted: BufferType, c: Choice): State
    requires HasStream(s, x) && Config(s, x).PcmConfig?
  {
    match x
    case OutS(i) =>
      var o := if sco then s.outs[i] else Throttled(s.outs[i], wanted, c.fill);
      s.(outs := s.outs[i := o.(written := o.written + c.frames)])
    case InS(i) => s
  }

  /** The lock a thread is waiting for. */
  function Wants(pc: Pc): Option<Lock> {
    match pc
    case WantDev(_) => Some(DevLock)
    case WantOwn(op) => if op.DeviceOnly? then None else Some(Own(op))
    case WantAlone(op) => if op.DeviceOnly? then None else Some(Own(op))
    case WantPeer(_, p) => Some(StreamLock(p))
    case _ => None
  }

  /** Ops and streams fit the program point. */
  predicate WellFormed(s: State, pc: Pc) {
    match pc
    case Idle => true
    case WantDev(op) => !op.Position? && (op.DeviceOnly? || HasStream(s, op.s))
    case HasDev(op) => !op.Position? && (op.DeviceOnly? || HasStream(s, op.s))
    case WantOwn(op) => !op.Position? && !op.DeviceOnly? && HasStream(s, op.s)
    case HasBoth(op) => !op.Position? && !op.DeviceOnly? && HasStream(s, op.s)
    case Finishing(op, apply) => !op.Position? && !op.Transfer? && (apply ==> op.Route? && HasStream(s, op.s))
    case WantAlone(op) => op.Position? && HasStream(s, op.s)
    case HasAlone(op) => op.Position? && HasStream(s, op.s)
    case WantPeer(op, p) =>
      && op.Transfer? && HasStream(s, op.s) && HasStream(s, p) && p.OutS? != op.s.OutS?
      && Config(s, op.s).PcmConfig? && Config(s, p).PcmConfig?
    case HasPeer(op, p) =>
      && op.Transfer? && HasStream(s, op.s) && HasStream(s, p) && p.OutS? != op.s.OutS?
      && Config(s, op.s).PcmConfig? && Config(s, p).PcmConfig?
    case Opening(op) => op.Transfer? && HasStream(s, op.s) && Config(s, op.s).PcmConfig?
    case Moving(op, _, wanted) => op.Transfer? && HasStream(s, op.s) && Config(s, op.s).PcmConfig? && !wanted.Unknown?
    case Opened(op) => op.Transfer? && HasStream(s, op.s) && Config(s, op.s).PcmConfig?
    case Snapshot(op) => op.Transfer? && HasStream(s, op.s) && Config(s, op.s).PcmConfig?
    case Failed(op) => op.Transfer? && HasStream(s, op.s)
    case Exiting(op) => op.Transfer? && HasStream(s, op.s)
  }

  predicate Enabled(s: State, step: Step) {
    match step
    case Begin(t, op) => t in s.pcs && s.pcs[t].Idle? && (op.DeviceOnly? || HasStream(s, op.s))
    case Go(t, c) =>
      && t in s.pcs && !s.pcs[t].Idle? && WellFormed(s, s.pcs[t])
      && (Wants(s.pcs[t]).Some? ==> Wants(s.pcs[t]).value !in s.owner)
      && (s.pcs[t].Opening? ==> c.pcm !in s.dev.pcms)
    case Screen(_) => true
  }

  /** What a step does to the locks, which its program point determines. */
  datatype LockEffect = Keep | Take(l: Lock) | Drop(l: Lock)

  function Effect(pc: Pc): LockEffect {
    if Wants(pc).Some? then Take(Wants(pc).value)
    else match pc
      case HasBoth(op) => if op.Transfer? || op.DeviceOnly? then Keep else Drop(Own(op))
      case HasPeer(_, p) => Drop(StreamLock(p))
      case Snapshot(_) => Drop(DevLock)
      case Failed(_) => Drop(DevLock)
      case Finishing(_, _) => Drop(DevLock)
      case Exiting(op) => if op.DeviceOnly? then Keep else Drop(Own(op))
      case HasAlone(op) => if op.DeviceOnly? then Keep else Drop(Own(op))
      case _ => Keep
  }

  function NextOwner(owner: map<Lock, nat>, t: nat, e: LockEffect): map<Lock, nat> {
    match e case Keep => owner case Take(l) => owner[l := t] case Drop(l) => owner - {l}
  }

  /** What a step does to the device and the streams. */
  function Data(s: State, pc: Pc, c: Choice): State
    requires WellFormed(s, pc)
  {
    match pc
    case HasBoth(op) =>
      if !op.Transfer? then PutStandby(s, op.s)
      else if IsStandby(s, op.s) then Select(s, op.s)
      else s
    case HasPeer(op, p) => if Conflict(Config(s, op.s).rate, Config(s, p).rate) then PutStandby(s, p) else s
    case Opening(op) => Open(s, op.s, c)
    case Opened(op) => ClearStandby(s, op.s)
    case Moving(op, sco, wanted) => Move(s, op.s, sco, wanted, c)
    case Finishing(op, apply) => if apply then s.(dev := WithMask(s.dev, op.s, op.mask)) else s
    case _ => s
  }

  /** Where a step leads; the branches of the source are taken on the data before the step. */
  function NextPc(s: State, pc: Pc, c: Choice): Pc
    requires WellFormed(s, pc)
  {
    match pc
    case Idle => Idle
    case WantDev(op) => HasDev(op)
    case HasDev(op) =>
      (match op
       case DeviceOnly => Finishing(op, false)
       case Route(x, mask) =>
         if Routing(s.dev, x) == mask || mask == NO_DEVICE then Finishing(op, false)
         else if ScoChanges(Routing(s.dev, x), mask) then WantOwn(op)
         else Finishing(op, true)
       case _ => WantOwn(op))
    case WantOwn(op) => HasBoth(op)
    case HasBoth(op) =>
      if !op.Transfer? then Finishing(op, op.Route?)
      else if !IsStandby(s, op.s) then Snapshot(op)
      else if Peer(s.dev, op.s).Some? then WantPeer(op, Peer(s.dev, op.s).value)
      else Opening(op)
    case WantPeer(op, p) => HasPeer(op, p)
    case HasPeer(op, _) => Opening(op)
    case Opening(op) => if c.ready then Opened(op) else Failed(op)
    case Opened(op) => Snapshot(op)
    case Snapshot(op) => Moving(op, IsSco(Routing(s.dev, op.s)), WantedType(s.dev))
    case Failed(op) => Exiting(op)
    case Moving(op, _, _) => Exiting(op)
    case Exiting(_) => Idle
    case Finishing(_, _) => Idle
    case WantAlone(op) => HasAlone(op)
    case HasAlone(_) => Idle
  }

  function Apply(s: State, step: Step): State
    requires Enabled(s, step)
  {
    match step
    case Begin(t, op) => s.(pcs := s.pcs[t := if op.Position? then WantAlone(op) else WantDev(op)])
    case Go(t, c) =>
      var pc := s.pcs[t];
      var d := Data(s, pc, c);
      State(d.dev, d.outs, d.ins, NextOwner(s.owner, t, Effect(pc)), s.pcs[t := NextPc(s, pc, c)])
    case Screen(off) => s.(dev := s.dev.(screenOff := off))
  }

  /** All threads idle, all streams as adev_open_*_stream leaves them. */
  ghost predicate Init(s: State) {
    && s.owner == map[]
    && (forall t :: t in s.pcs ==> s.pcs[t].Idle?)
    && (forall i :: i in s.outs ==> s.outs[i] == InitOut())
    && (forall i :: i in s.ins ==> exists rate: nat, fast: bool :: s.ins[i] == InitIn(rate, fast))
    && s.dev.activeOut.None? && s.dev.activeIn.None? && s.dev.pcms == {}
  }

  /** The state a run ends in, or `None` if some step of it is not possible. */
  function Run(s: State, steps: seq<Step>): Option<State> {
    if steps == [] then Some(s)
    else
      var before := Run(s, steps[..|steps| - 1]);
      if before.Some? && Enabled(before.value, steps[|steps| - 1])
      then Some(Apply(before.value, steps[|steps| - 1]))
      else None
  }
}
