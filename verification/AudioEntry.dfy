/** The first part of out_write and in_read, under the device lock, as an uninterrupted run of the
    machine: what it does to the device and both streams, as one function of the state. */
module AudioEntry {
  import opened Options
  import opened AudioState
  import opened AudioThreshold
  import opened AudioMachine
  import opened AudioInvariant

  /** start_output_stream with the active input stream, if any. */
  function StartOut(d: Dev, o: Out, peer: Option<In>, id: nat, pcm: nat, ready: bool): ((Dev, Out), Option<In>)
    requires peer.Some? ==> peer.value.config.PcmConfig?
  {
    var o1 := SelectOut(d, o);
    if peer.Some? && Conflict(o1.config.rate, peer.value.config.rate) then
      var (d1, i1) := InStandby(d, peer.value);
      (OpenOut(d1, o1, id, pcm, ready), Some(i1))
    else (OpenOut(d, o1, id, pcm, ready), peer)
  }

  /** start_input_stream with the active output stream, if any. */
  function StartIn(d: Dev, i: In, peer: Option<Out>, id: nat, pcm: nat, ready: bool): ((Dev, In), Option<Out>)
    requires i.configNonSco.PcmConfig? && (peer.Some? ==> peer.value.config.PcmConfig?)
  {
    var i1 := SelectIn(d, i);
    if peer.Some? && Conflict(i1.config.rate, peer.value.config.rate) then
      var (d1, o1) := OutStandby(d, peer.value);
      (OpenIn(d1, i1, id, pcm, ready), Some(o1))
    else (OpenIn(d, i1, id, pcm, ready), peer)
  }

  function ActiveIn(d: Dev, i: In): Option<In> { if d.activeIn.Some? then Some(i) else None }

  function ActiveOut(d: Dev, o: Out): Option<Out> { if d.activeOut.Some? then Some(o) else None }

  function Or<T>(peer: Option<T>, otherwise: T): T { if peer.Some? then peer.value else otherwise }

  /** The first part of out_write: device and both streams after it. */
  function WriteEntry(d: Dev, o: Out, i: In, pcm: nat, ready: bool): (Dev, Out, In)
    requires d.activeIn.Some? ==> i.config.PcmConfig?
  {
    if !o.standby then (d, o, i)
    else
      var ((d', o'), p) := StartOut(d, o, ActiveIn(d, i), 0, pcm, ready);
      (d', o'.(standby := !ready), Or(p, i))
  }

  /** The first part of in_read. */
  function ReadEntry(d: Dev, o: Out, i: In, pcm: nat, ready: bool): (Dev, Out, In)
    requires i.configNonSco.PcmConfig? && (d.activeOut.Some? ==> o.config.PcmConfig?)
  {
    if !i.standby then (d, o, i)
    else
      var ((d', i'), p) := StartIn(d, i, ActiveOut(d, o), 0, pcm, ready);
      (d', Or(p, o), i'.(standby := !ready))
  }

  /** The thread is about to take the device lock for a transfer and no lock is held. */
  predicate AtEntry(s: State, t: nat, x: Stream, c: Choice) {
    && t in s.pcs && s.pcs[t] == WantDev(Transfer(x)) && s.owner == map[] && HasStream(s, x)
    && (x.InS? ==> s.ins[x.id].configNonSco.PcmConfig?)
    && (Peer(s.dev, x).Some? ==> HasStream(s, Peer(s.dev, x).value) && Config(s, Peer(s.dev, x).value).PcmConfig?)
    && (!IsStandby(s, x) ==> Config(s, x).PcmConfig?)
    && c.pcm !in s.dev.pcms
  }

  // ---------- one thread alone ----------

  /** The data of `d` with these owners, thread `t` at `pc` and the others as in `pcs`. */
  function At(d: State, owner: map<Lock, nat>, pcs: map<nat, Pc>, t: nat, pc: Pc): State {
    State(d.dev, d.outs, d.ins, owner, pcs[t := pc])
  }

  predicate SameStreams(s: State, d: State) { s.dev == d.dev && s.outs == d.outs && s.ins == d.ins }

  /** Data, branches and well-formedness look at device and streams only. */
  lemma SameForm(s: State, d: State, pc: Pc)
    requires SameStreams(s, d) && WellFormed(d, pc)
    ensures WellFormed(s, pc)
  {
  }

  lemma SameBranch(s: State, d: State, pc: Pc, c: Choice)
    requires SameStreams(s, d) && WellFormed(d, pc) && WellFormed(s, pc)
    ensures NextPc(s, pc, c) == NextPc(d, pc, c)
  {
  }

  lemma SameSelect(s: State, d: State, x: Stream)
    requires SameStreams(s, d) && HasStream(s, x)
    ensures SameStreams(Select(s, x), Select(d, x))
  {
  }

  lemma SamePutStandby(s: State, d: State, x: Stream)
    requires SameStreams(s, d) && HasStream(s, x)
    ensures SameStreams(PutStandby(s, x), PutStandby(d, x))
  {
  }

  lemma SameOpen(s: State, d: State, x: Stream, c: Choice)
    requires SameStreams(s, d) && HasStream(s, x) && Config(s, x).PcmConfig?
    ensures SameStreams(Open(s, x, c), Open(d, x, c))
  {
  }

  lemma SameData(s: State, d: State, pc: Pc, c: Choice)
    requires SameStreams(s, d) && WellFormed(d, pc) && WellFormed(s, pc)
    ensures SameStreams(Data(s, pc, c), Data(d, pc, c))
  {
    match pc
    case HasBoth(op) => if op.Transfer? { SameSelect(s, d, op.s); } else { SamePutStandby(s, d, op.s); }
    case HasPeer(op, p) => SamePutStandby(s, d, p);
    case Opening(op) => SameOpen(s, d, op.s, c);
    case _ =>
  }

  /** One more step of the thread. */
  lemma GoAt(s0: State, steps: seq<Step>, d: State, owner: map<Lock, nat>, pcs: map<nat, Pc>, t: nat, pc: Pc, c: Choice)
    requires Run(s0, steps) == Some(At(d, owner, pcs, t, pc)) && !pc.Idle? && WellFormed(d, pc)
    requires (Wants(pc).Some? ==> Wants(pc).value !in owner) && (pc.Opening? ==> c.pcm !in d.dev.pcms)
    ensures Run(s0, steps + [Go(t, c)]) ==
            Some(At(Data(d, pc, c), NextOwner(owner, t, Effect(pc)), pcs, t, NextPc(d, pc, c)))
  {
    var s := At(d, owner, pcs, t, pc);
    SameForm(s, d, pc);
    SameBranch(s, d, pc, c);
    SameData(s, d, pc, c);
    var s' := Then(s0, steps, s, Go(t, c));
    assert s.pcs[t := NextPc(d, pc, c)] == pcs[t := NextPc(d, pc, c)];
  }

  /** Steps of this thread only. */
  predicate Alone(steps: seq<Step>, t: nat) { forall k :: 0 <= k < |steps| ==> steps[k].Go? && steps[k].t == t }

  /** The locks of a thread under the device lock. */
  function Both(x: Stream, t: nat): map<Lock, nat> { map[DevLock := t, StreamLock(x) := t] }

  lemma TakeBoth(s: State, t: nat, x: Stream, c: Choice) returns (steps: seq<Step>)
    requires AtEntry(s, t, x, c)
    ensures Alone(steps, t)
    ensures Run(s, steps) == Some(At(s, Both(x, t), s.pcs, t, HasBoth(Transfer(x))))
  {
    var op, go := Transfer(x), Go(t, c);
    assert s.pcs == s.pcs[t := WantDev(op)];
    assert Run(s, []) == Some(At(s, map[], s.pcs, t, WantDev(op)));
    GoAt(s, [], s, map[], s.pcs, t, WantDev(op), c);
    GoAt(s, [] + [go], s, map[DevLock := t], s.pcs, t, HasDev(op), c);
    GoAt(s, [] + [go] + [go], s, map[DevLock := t], s.pcs, t, WantOwn(op), c);
    steps := [] + [go] + [go] + [go];
  }

  /** Choosing the PCM and making room for its rate. */
  function Prepared(s: State, x: Stream): State
    requires HasStream(s, x) && (x.InS? ==> s.ins[x.id].configNonSco.PcmConfig?)
    requires Peer(s.dev, x).Some? ==> HasStream(s, Peer(s.dev, x).value) && Config(s, Peer(s.dev, x).value).PcmConfig?
  {
    var s1, peer := Select(s, x), Peer(s.dev, x);
    if peer.Some? then Room(s1, x, peer.value) else s1
  }

  function Room(d: State, x: Stream, p: Stream): State
    requires HasStream(d, x) && HasStream(d, p) && Config(d, x).PcmConfig? && Config(d, p).PcmConfig?
  {
    if Conflict(Config(d, x).rate, Config(d, p).rate) then PutStandby(d, p) else d
  }

  lemma MakeRoom(s0: State, before: seq<Step>, d: State, pcs: map<nat, Pc>, t: nat, x: Stream, p: Stream, c: Choice)
    requires HasStream(d, x) && HasStream(d, p) && p.OutS? != x.OutS?
    requires Config(d, x).PcmConfig? && Config(d, p).PcmConfig?
    requires Run(s0, before) == Some(At(d, Both(x, t), pcs, t, WantPeer(Transfer(x), p)))
    ensures Run(s0, before + [Go(t, c)] + [Go(t, c)]) ==
            Some(At(Room(d, x, p), Both(x, t), pcs, t, Opening(Transfer(x))))
  {
    var op, go := Transfer(x), Go(t, c);
    GoAt(s0, before, d, Both(x, t), pcs, t, WantPeer(op, p), c);
    GoAt(s0, before + [go], d, Both(x, t)[StreamLock(p) := t], pcs, t, HasPeer(op, p), c);
    assert Both(x, t)[StreamLock(p) := t] - {StreamLock(p)} == Both(x, t);
  }

  lemma SelectFrame(s: State, x: Stream)
    requires HasStream(s, x) && (x.InS? ==> s.ins[x.id].configNonSco.PcmConfig?)
    ensures var s1 := Select(s, x);
            && s1.dev == s.dev && HasStream(s1, x) && Config(s1, x).PcmConfig?
            && (x.OutS? ==> s1.ins == s.ins) && (x.InS? ==> s1.outs == s.outs)
  {
  }

  lemma Prepare(s: State, before: seq<Step>, t: nat, x: Stream, c: Choice) returns (steps: seq<Step>)
    requires Alone(before, t)
    requires AtEntry(s, t, x, c) && IsStandby(s, x)
    requires Run(s, before) == Some(At(s, Both(x, t), s.pcs, t, HasBoth(Transfer(x))))
    ensures Alone(steps, t)
    ensures Run(s, steps) == Some(At(Prepared(s, x), Both(x, t), s.pcs, t, Opening(Transfer(x))))
  {
    var op, peer, s1 := Transfer(x), Peer(s.dev, x), Select(s, x);
    SelectFrame(s, x);
    GoAt(s, before, s, Both(x, t), s.pcs, t, HasBoth(op), c);
    steps := before + [Go(t, c)];
    var pc := if peer.Some? then WantPeer(op, peer.value) else Opening(op);
    assert Run(s, steps) == Some(At(s1, Both(x, t), s.pcs, t, pc));
    if peer.Some? {
      MakeRoom(s, steps, s1, s.pcs, t, x, peer.value, c);
      steps := steps + [Go(t, c)] + [Go(t, c)];
    }
  }

  /** What opening does, successful or not. */
  function Opened(s: State, x: Stream, c: Choice): State
    requires HasStream(s, x) && Config(s, x).PcmConfig?
  {
    if c.ready then ClearStandby(Open(s, x, c), x) else Open(s, x, c)
  }

  lemma Leave(s0: State, before: seq<Step>, d: State, pcs: map<nat, Pc>, t: nat, x: Stream, c: Choice)
      returns (steps: seq<Step>)
    requires Alone(before, t)
    requires HasStream(d, x) && Config(d, x).PcmConfig?
    requires Run(s0, before) == Some(At(d, Both(x, t), pcs, t, Snapshot(Transfer(x))))
    ensures Alone(steps, t)
    ensures Run(s0, steps) == Some(At(d, map[StreamLock(x) := t], pcs, t, After(d, x, true)))
  {
    GoAt(s0, before, d, Both(x, t), pcs, t, Snapshot(Transfer(x)), c);
    assert Both(x, t) - {DevLock} == map[StreamLock(x) := t];
    steps := before + [Go(t, c)];
  }

  lemma LeaveFailed(s0: State, before: seq<Step>, d: State, pcs: map<nat, Pc>, t: nat, x: Stream, c: Choice)
      returns (steps: seq<Step>)
    requires Alone(before, t)
    requires HasStream(d, x) && Run(s0, before) == Some(At(d, Both(x, t), pcs, t, Failed(Transfer(x))))
    ensures Alone(steps, t)
    ensures Run(s0, steps) == Some(At(d, map[StreamLock(x) := t], pcs, t, After(d, x, false)))
  {
    GoAt(s0, before, d, Both(x, t), pcs, t, Failed(Transfer(x)), c);
    assert Both(x, t) - {DevLock} == map[StreamLock(x) := t];
    steps := before + [Go(t, c)];
  }

  lemma OpenFrame(d: State, x: Stream, c: Choice)
    requires HasStream(d, x) && Config(d, x).PcmConfig?
    ensures var d1 := Open(d, x, c);
            && HasStream(d1, x) && Config(d1, x) == Config(d, x)
            && HasStream(ClearStandby(d1, x), x) && Config(ClearStandby(d1, x), x) == Config(d, x)
  {
  }

  lemma OpenAndLeave(s0: State, before: seq<Step>, d: State, pcs: map<nat, Pc>, t: nat, x: Stream, c: Choice)
      returns (steps: seq<Step>)
    requires Alone(before, t)
    requires HasStream(d, x) && Config(d, x).PcmConfig? && c.pcm !in d.dev.pcms
    requires Run(s0, before) == Some(At(d, Both(x, t), pcs, t, Opening(Transfer(x))))
    ensures Alone(steps, t)
    ensures var e := Opened(d, x, c);
            Run(s0, steps) == Some(At(e, map[StreamLock(x) := t], pcs, t, After(e, x, c.ready)))
  {
    var op, d1 := Transfer(x), Open(d, x, c);
    OpenFrame(d, x, c);
    GoAt(s0, before, d, Both(x, t), pcs, t, Opening(op), c);
    steps := before + [Go(t, c)];
    if c.ready {
      GoAt(s0, steps, d1, Both(x, t), pcs, t, Pc.Opened(op), c);
      steps := Leave(s0, steps + [Go(t, c)], ClearStandby(d1, x), pcs, t, x, c);
    } else {
      steps := LeaveFailed(s0, steps, d1, pcs, t, x, c);
    }
  }

  lemma PreparedFrame(s: State, x: Stream)
    requires HasStream(s, x) && (x.InS? ==> s.ins[x.id].configNonSco.PcmConfig?)
    requires Peer(s.dev, x).Some? ==> HasStream(s, Peer(s.dev, x).value) && Config(s, Peer(s.dev, x).value).PcmConfig?
    ensures var s1 := Prepared(s, x); HasStream(s1, x) && Config(s1, x).PcmConfig? && s1.dev.pcms <= s.dev.pcms
  {
  }

  /** Where the entry leads: to the transfer with what was read under the device lock, or out. */
  function After(s: State, x: Stream, started: bool): Pc {
    if started then Moving(Transfer(x), IsSco(Routing(s.dev, x)), WantedType(s.dev)) else Exiting(Transfer(x))
  }

  /** What the entry does to device and streams. */
  function Entered(s: State, x: Stream, c: Choice): State
    requires HasStream(s, x) && (x.InS? ==> s.ins[x.id].configNonSco.PcmConfig?)
    requires Peer(s.dev, x).Some? ==> HasStream(s, Peer(s.dev, x).value) && Config(s, Peer(s.dev, x).value).PcmConfig?
  {
    if !IsStandby(s, x) then s
    else
      PreparedFrame(s, x);
      Opened(Prepared(s, x), x, c)
  }

  /** The entry is a run of the machine: the thread ends with its stream's lock alone, about to
      transfer or to leave, and device and streams are those of `Entered`. */
  lemma EntryIsRun(s: State, t: nat, x: Stream, c: Choice) returns (steps: seq<Step>)
    requires AtEntry(s, t, x, c)
    ensures Alone(steps, t)
    ensures var e := Entered(s, x, c);
            Run(s, steps) == Some(At(e, map[StreamLock(x) := t], s.pcs, t, After(e, x, !IsStandby(s, x) || c.ready)))
  {
    var go := Go(t, c);
    steps := TakeBoth(s, t, x, c);
    if IsStandby(s, x) {
      steps := Prepare(s, steps, t, x, c);
      PreparedFrame(s, x);
      steps := OpenAndLeave(s, steps, Prepared(s, x), s.pcs, t, x, c);
    } else {
      GoAt(s, steps, s, Both(x, t), s.pcs, t, HasBoth(Transfer(x)), c);
      steps := Leave(s, steps + [go], s, s.pcs, t, x, c);
    }
  }

  /** For an output stream in standby the entry makes start_output_stream. */
  lemma OutEntered(s: State, id: nat, c: Choice)
    requires id in s.outs && s.outs[id].standby
    requires s.dev.activeIn.Some? ==> s.dev.activeIn.value in s.ins && s.ins[s.dev.activeIn.value].config.PcmConfig?
    ensures var e := Entered(s, OutS(id), c);
            var peer := if s.dev.activeIn.Some? then Some(s.ins[s.dev.activeIn.value]) else None;
            var ((d, o), p) := StartOut(s.dev, s.outs[id], peer, id, c.pcm, c.ready);
            && e.dev == d && e.outs == s.outs[id := o.(standby := !c.ready)]
            && e.ins == (if p.Some? then s.ins[s.dev.activeIn.value := p.value] else s.ins)
  {
  }

  lemma InEntered(s: State, id: nat, c: Choice)
    requires id in s.ins && s.ins[id].standby && s.ins[id].configNonSco.PcmConfig?
    requires s.dev.activeOut.Some? ==>
               s.dev.activeOut.value in s.outs && s.outs[s.dev.activeOut.value].config.PcmConfig?
    ensures var e := Entered(s, InS(id), c);
            var peer := if s.dev.activeOut.Some? then Some(s.outs[s.dev.activeOut.value]) else None;
            var ((d, i), p) := StartIn(s.dev, s.ins[id], peer, id, c.pcm, c.ready);
            && e.dev == d && e.ins == s.ins[id := i.(standby := !c.ready)]
            && e.outs == (if p.Some? then s.outs[s.dev.activeOut.value := p.value] else s.outs)
  {
  }

  // ---------- one output and one input stream ----------

  /** Device and streams of a machine with one stream of each kind. */
  predicate Shows(s: State, d: Dev, o: Out, i: In) { s.dev == d && s.outs == map[0 := o] && s.ins == map[0 := i] }

  /** From every such machine state at the entry, some uninterrupted run of the thread leads to the
      new device and streams, with the stream lock alone, at the transfer or on the way out. */
  ghost predicate EntryRuns(x: Stream, pcm: nat, ready: bool, d: Dev, o: Out, i: In,
                            d': Dev, o': Out, i': In, started: bool)
  {
    forall s, t, c :: AtEntry(s, t, x, c) && Shows(s, d, o, i) && c.pcm == pcm && c.ready == ready ==>
      exists s' :: Follows(s, t, x, s', started) && Shows(s', d', o', i')
  }

  ghost predicate Follows(s: State, t: nat, x: Stream, s': State, started: bool) {
    && s'.owner == map[StreamLock(x) := t] && s'.pcs == s.pcs[t := After(s', x, started)]
    && exists steps: seq<Step> :: Run(s, steps) == Some(s') && Alone(steps, t)
  }

  lemma EntryFollows(s: State, t: nat, x: Stream, c: Choice) returns (s': State)
    requires AtEntry(s, t, x, c)
    ensures Follows(s, t, x, s', !IsStandby(s, x) || c.ready) && SameStreams(s', Entered(s, x, c))
  {
    var e := Entered(s, x, c);
    var steps := EntryIsRun(s, t, x, c);
    s' := At(e, map[StreamLock(x) := t], s.pcs, t, After(e, x, !IsStandby(s, x) || c.ready));
  }

  /** out_write's first part is a run of the machine. */
  lemma WriteEntryRuns(d: Dev, o: Out, i: In, pcm: nat, ready: bool)
    requires (d.activeIn.Some? ==> d.activeIn == Some(0) && i.config.PcmConfig?)
    ensures var (d', o', i') := WriteEntry(d, o, i, pcm, ready);
            EntryRuns(OutS(0), pcm, ready, d, o, i, d', o', i', !o.standby || ready)
  {
    var (d', o', i') := WriteEntry(d, o, i, pcm, ready);
    forall s, t, c | AtEntry(s, t, OutS(0), c) && Shows(s, d, o, i) && c.pcm == pcm && c.ready == ready
      ensures exists s' :: Follows(s, t, OutS(0), s', !o.standby || ready) && Shows(s', d', o', i')
    {
      var s' := EntryFollows(s, t, OutS(0), c);
      if o.standby { OutEntered(s, 0, c); }
      assert Shows(s', d', o', i');
    }
  }

  /** in_read's first part is a run of the machine. */
  lemma ReadEntryRuns(d: Dev, o: Out, i: In, pcm: nat, ready: bool)
    requires i.configNonSco.PcmConfig? && (d.activeOut.Some? ==> d.activeOut == Some(0) && o.config.PcmConfig?)
    ensures var (d', o', i') := ReadEntry(d, o, i, pcm, ready);
            EntryRuns(InS(0), pcm, ready, d, o, i, d', o', i', !i.standby || ready)
  {
    var (d', o', i') := ReadEntry(d, o, i, pcm, ready);
    forall s, t, c | AtEntry(s, t, InS(0), c) && Shows(s, d, o, i) && c.pcm == pcm && c.ready == ready
      ensures exists s' :: Follows(s, t, InS(0), s', !i.standby || ready) && Shows(s', d', o', i')
    {
      var s' := EntryFollows(s, t, InS(0), c);
      if i.standby { InEntered(s, 0, c); }
      assert Shows(s', d', o', i');
    }
  }

  // ---------- a position query on a closed PCM ----------

  /** One thread, two new streams. */
  const IDLE := State(IDLE_DEVICE, map[0 := InitOut()], map[0 := InitIn(44100, false)], map[], map[0 := Idle])

  lemma {:induction false} RunConcat(s0: State, a: seq<Step>, b: seq<Step>)
    requires Run(s0, a).Some? && Run(Run(s0, a).value, b).Some?
    ensures Run(s0, a + b) == Run(Run(s0, a).value, b)
  {
    if b == [] {
      assert a + b == a;
    } else {
      RunConcat(s0, a, b[..|b| - 1]);
      assert (a + b)[..|a + b| - 1] == a + b[..|b| - 1];
    }
  }

  /** A write whose PCM is not ready, up to where the thread is about to leave. */
  lemma FailedEntry(s0: State, x: Stream, c: Choice) returns (steps: seq<Step>, e: State)
    requires s0 == IDLE
    requires x == OutS(0) && !c.ready
    ensures Run(s0, steps) == Some(At(e, map[StreamLock(x) := 0], s0.pcs, 0, Exiting(Transfer(x))))
    ensures e.dev == IDLE_DEVICE && 0 in e.outs && e.outs[0].pcm == Some(c.pcm)
  {
    var begin := Begin(0, Transfer(x));
    var s1 := Then(s0, [], s0, begin);
    var entry := EntryIsRun(s1, 0, x, c);
    RunConcat(s0, [] + [begin], entry);
    steps := [] + [begin] + entry;
    e := Entered(s1, x, c);
    OutEntered(s1, 0, c);
    assert s1.pcs[0 := Exiting(Transfer(x))] == s0.pcs[0 := Exiting(Transfer(x))];
  }

  lemma Query(s0: State, steps: seq<Step>, e: State, pcs: map<nat, Pc>, x: Stream)
    requires HasStream(e, x) && Run(s0, steps) == Some(At(e, map[], pcs, 0, Idle))
    ensures Run(s0, steps + [Begin(0, Position(x))]) == Some(At(e, map[], pcs, 0, WantAlone(Position(x))))
  {
    var s := Then(s0, steps, At(e, map[], pcs, 0, Idle), Begin(0, Position(x)));
    assert pcs[0 := Idle][0 := WantAlone(Position(x))] == pcs[0 := WantAlone(Position(x))];
  }

  /** A thread leaves its transfer and asks for the position. */
  lemma LeaveAndQuery(s0: State, before: seq<Step>, e: State, pcs: map<nat, Pc>, x: Stream, c: Choice)
      returns (steps: seq<Step>)
    requires HasStream(e, x) && Run(s0, before) == Some(At(e, map[StreamLock(x) := 0], pcs, 0, Exiting(Transfer(x))))
    ensures Run(s0, steps) == Some(At(e, map[StreamLock(x) := 0], pcs, 0, HasAlone(Position(x))))
  {
    GoAt(s0, before, e, map[StreamLock(x) := 0], pcs, 0, Exiting(Transfer(x)), c);
    assert map[StreamLock(x) := 0] - {StreamLock(x)} == map[];
    steps := before + [Go(0, c)];
    Query(s0, steps, e, pcs, x);
    steps := steps + [Begin(0, Position(x))];
    GoAt(s0, steps, e, map[], pcs, 0, WantAlone(Position(x)), c);
    steps := steps + [Go(0, c)];
  }

  /** After an open that failed, the stream still names the closed PCM, and a position query acts
      on it. */
  lemma QueryOnClosedPcm() returns (s0: State, steps: seq<Step>)
    ensures Init(s0) && Single(s0) && Run(s0, steps).Some?
    ensures var s := Run(s0, steps).value;
            && 0 in s.pcs && s.pcs[0] == HasAlone(Position(OutS(0))) && 0 in s.outs
            && s.outs[0].pcm.Some? && s.outs[0].pcm.value !in s.dev.pcms
  {
    s0 := IDLE;
    var x, c := OutS(0), Choice(false, 7, 0, 0);
    var e;
    steps, e := FailedEntry(s0, x, c);
    steps := LeaveAndQuery(s0, steps, e, s0.pcs, x, c);
  }

  // ---------- a write without a timestamp ----------

  /** The screen goes off and a write gets as far as its transfer. */
  lemma LongWriteEntry(x: Stream, c: Choice) returns (steps: seq<Step>, e: State, pcs: map<nat, Pc>)
    requires x == OutS(0) && c.ready
    ensures Run(IDLE, steps) == Some(At(e, map[StreamLock(x) := 0], pcs, 0, Moving(Transfer(x), false, Long)))
    ensures 0 in e.outs && e.outs[0].config == CONFIG_OUT && e.outs[0].bufferType.Unknown?
  {
    var begin := Begin(0, Transfer(x));
    var s1 := Then(IDLE, [], IDLE, Screen(true));
    var s2 := Then(IDLE, [] + [Screen(true)], s1, begin);
    var entry := EntryIsRun(s2, 0, x, c);
    RunConcat(IDLE, [] + [Screen(true)] + [begin], entry);
    steps := [] + [Screen(true)] + [begin] + entry;
    e, pcs := Entered(s2, x, c), s2.pcs;
    OutEntered(s2, 0, c);
  }

  /** The first write with the screen off, none of whose timestamp reads succeeds: whenever the
      variable holds a negative value, the threshold leaves its range; for -1 it becomes 128. */
  lemma UnsetFillLeavesRange(fill: int) returns (s0: State, steps: seq<Step>)
    requires fill < 0
    ensures Init(s0) && Single(s0) && Run(s0, steps).Some? && 0 in Run(s0, steps).value.outs
    ensures var o := Run(s0, steps).value.outs[0];
            o.bufferType.Long? && !Controlled(o) && (fill == -1 ==> o.threshold == 128)
  {
    s0 := IDLE;
    var x, c := OutS(0), Choice(true, 7, fill, 0);
    var e, pcs;
    steps, e, pcs := LongWriteEntry(x, c);
    GoAt(s0, steps, e, map[StreamLock(x) := 0], pcs, 0, Moving(Transfer(x), false, Long), c);
    steps := steps + [Go(0, c)];
    ThrottledIsControlled(e.outs[0], Long, fill);
  }
}
