/** The audio HAL's objects and the methods that change them.  Each method makes exactly the state
    changes of the value model and keeps the invariant that the machine keeps: activity, standby
    marks, routing, configurations and open PCMs of both streams agree.  The methods run with the
    locks of their callers held. */
module AudioHal {
  import opened Options
  import opened AudioState
  import opened AudioThreshold
  import opened AudioInvariant
  import opened AudioEntry
  import opened AudioMachine
  import AudioPosition
  import AudioCapture

  class StreamOut {
    const id: nat
    var pcm: Option<nat>
    var config: PcmConfig
    var standby: bool
    var resampler: bool
    var buffer: bool
    var bufferType: BufferType
    var target: int
    var threshold: int
    var written: nat

    ghost function View(): Out
      reads this
    {
      Out(pcm, config, standby, resampler, buffer, bufferType, target, threshold, written)
    }

    constructor (id: nat)
      ensures View() == InitOut() && this.id == id
      ensures standby && pcm == None && config == NoConfig && bufferType.Unknown? && written == 0
    {
      this.id := id;
      pcm, config, standby, resampler, buffer := None, NoConfig, true, false, false;
      bufferType, target, threshold, written := Unknown, 0, 0, 0;
    }

    /** The change of buffer size when the wanted buffer type changes. */
    method ChangeType(wanted: BufferType)
      requires config.PcmConfig?
      modifies this`bufferType, this`target, this`threshold
      ensures View() == Retarget(old(View()), wanted)
      ensures bufferType == wanted
      ensures target == if wanted == old(bufferType) then old(target)
                        else config.periodSize * (if wanted.Long? then 8 else 2)
      ensures !old(bufferType).Unknown? ==> threshold == old(threshold)
      ensures old(bufferType).Unknown? && !wanted.Unknown? ==> threshold == target
    {
      if wanted != bufferType {
        target := config.periodSize * (if wanted.Long? then LONG_PERIOD_COUNT else SHORT_PERIOD_COUNT);
        if bufferType.Unknown? {
          threshold := target;
        }
        bufferType := wanted;
      }
    }

    /** The controller step at the end of a non-SCO write. */
    method StepThreshold(fill: int)
      modifies this`threshold
      ensures threshold == Adjust(old(threshold), target, fill)
    {
      if threshold > target {
        threshold := threshold - 128;
        if threshold < target {
          threshold := target;
        }
      } else if threshold < target {
        threshold := threshold + 128;
        if threshold > target {
          threshold := target;
        }
      } else if fill < target && target - fill > 1024 {
        threshold := (fill / 512 + 1) * 512;
        threshold := threshold + 128;
      }
    }

    /** The part of out_write that adapts the buffer size: new target, sleep loop, controller.
        `fill` is what kernel_frames holds at the end: the latest successful reading, or `unset`. */
    method AdaptThreshold(wanted: BufferType, readings: nat -> Option<int>, unset: int)
      returns (ghost fill: int, ghost base: int, polls: nat, sleeps: seq<int>)
      requires config.PcmConfig?
      modifies this`bufferType, this`target, this`threshold
      ensures 0 < polls && forall k :: 0 <= k < polls - 1 ==> readings(k).Some?
      ensures fill == if readings(polls - 1).Some? then readings(polls - 1).value
                      else if polls == 1 then unset else readings(polls - 2).value
      ensures |sleeps| <= 12 && Sum(sleeps) <= 23219
      ensures View() == Throttled(old(View()), wanted, fill) && bufferType == wanted
      ensures target == if wanted == old(bufferType) then old(target)
                        else config.periodSize * (if wanted.Long? then 8 else 2)
      // The loop sleeps until the kernel holds no more than the threshold kept from before, or the
      // new target if the stream had no buffer type yet; from that one the controller moves.
      ensures base == if old(bufferType).Unknown? && !wanted.Unknown? then target else old(threshold)
      ensures Answers(sleeps, readings, f => (f - base) * 1000000 / 44100)
      ensures Finished(polls, sleeps, readings, f => (f - base) * 1000000 / 44100, base)
      ensures base > target ==> threshold == if base - 128 < target then target else base - 128
      ensures base < target ==> threshold == if base + 128 > target then target else base + 128
      ensures base == target && target - fill <= 1024 ==> threshold == target
      ensures base == target && target - fill > 1024 ==>
                threshold % 512 == 128 && fill + 128 < threshold <= fill + 640
      ensures old(Controlled(View())) && config == CONFIG_OUT && !wanted.Unknown? ==>
                (Controlled(View()) <==>
                   fill >= 0 || (!old(bufferType).Unknown? && old(threshold) != if wanted.Long? then 4096 else 1024))
    {
      ChangeType(wanted);
      base := threshold;
      var reading;
      reading, polls, sleeps := Throttle(threshold, readings);
      var last := if reading.Some? then reading.value else unset;
      fill := last;
      StepThreshold(last);
      assert View() == Throttled(old(View()), wanted, fill);
      WriteMeans(old(View()), wanted, fill);
      if old(Controlled(View())) && config == CONFIG_OUT && !wanted.Unknown? {
        ThrottledIsControlled(old(View()), wanted, fill);
      }
    }

    /** The part of out_write under the stream lock alone: adapt the threshold unless routed to
        SCO, then write.  `frames` frames reach pcm_write, which returns `status`; `unset` is what
        kernel_frames holds if no timestamp read succeeds. */
    method Transfer(sco: bool, wanted: BufferType, readings: nat -> Option<int>, unset: int, frames: nat, status: int)
      returns (ghost fill: int, polls: nat)
      requires config.PcmConfig?
      modifies this`bufferType, this`target, this`threshold, this`written
      ensures written == old(written) + if status == 0 then frames else 0
      ensures sco ==> bufferType == old(bufferType) && threshold == old(threshold) && target == old(target)
      ensures View() == (if sco then old(View()) else Throttled(old(View()), wanted, fill)).(written := written)
      ensures !sco ==> 0 < polls && forall k :: 0 <= k < polls - 1 ==> readings(k).Some?
      ensures !sco ==> fill == if readings(polls - 1).Some? then readings(polls - 1).value
                               else if polls == 1 then unset else readings(polls - 2).value
      // No abrupt change: the threshold of a stream that had a buffer type moves by at most 128,
      // unless it was at the target and more than 1024 frames were missing.
      ensures !sco ==> bufferType == wanted
      ensures !sco && !old(bufferType).Unknown? ==>
                || -128 <= threshold - old(threshold) <= 128
                || (old(threshold) == target && target - fill > 1024)
    {
      fill, polls := unset, 0;
      if !sco {
        ghost var base;
        var sleeps;
        fill, base, polls, sleeps := AdaptThreshold(wanted, readings, unset);
      }
      if status == 0 {
        written := written + frames;
      }
    }

    /** out_get_presentation_position; `avail` is the timestamp read's result. */
    method GetPresentationPosition(avail: Option<nat>) returns (frames: Option<nat>)
      requires written < AudioPosition.TWO_64
      requires avail.Some? ==> config.PcmConfig? && avail.value < 0x1_0000_0000
      requires config.PcmConfig? ==> config.periodSize * config.periodCount < 0x1_0000_0000
      ensures avail.None? ==> frames.None?
      ensures avail.Some? ==>
                var position := written - config.periodSize * config.periodCount + avail.value;
                && (position < 0 ==> frames.None?)
                && (0 <= position < 0x8000_0000_0000_0000 ==> frames == Some(position))
                && (0x8000_0000_0000_0000 <= position < 0x1_0000_0000_0000_0000 ==> frames.None?)
    {
      frames := None;
      if avail.Some? {
        frames := AudioPosition.ComputePosition(written, config.periodSize * config.periodCount, avail.value);
      }
    }
  }

  class StreamIn {
    const id: nat
    const requestedRate: nat
    const configNonSco: PcmConfig
    var pcm: Option<nat>
    var config: PcmConfig
    var standby: bool
    var resampler: bool
    var buffer: bool
    var framesIn: nat
    var session: AudioCapture.CaptureBuffer?   // the capture buffer of the latest session

    /** The buffer of the session counts the stream's frames, is open as told, and is sized for the
        stream's configuration while it is open. */
    ghost predicate SessionOk(open: bool)
      reads this, session, if session == null then {} else {session.buffer}
    {
      && (session == null ==> framesIn == 0 && !open)
      && (session != null ==> session.Valid() && session.framesIn == framesIn && session.open == open)
      && (open ==> && config.PcmConfig? && session.period == config.periodSize
                   && session.stereo == (config.channels == 2))
    }

    ghost function Sessions(): set<AudioCapture.CaptureBuffer>
      reads this
    {
      if session == null then {} else {session}
    }

    ghost predicate Linked()
      reads this, session, if session == null then {} else {session.buffer}
    {
      SessionOk(!standby)
    }

    ghost function View(): In
      reads this
    {
      In(pcm, config, configNonSco, standby, requestedRate, resampler, buffer, framesIn)
    }

    constructor (id: nat, rate: nat, fast: bool)
      ensures View() == InitIn(rate, fast) && this.id == id && Linked() && session == null
      ensures standby && framesIn == 0 && this.requestedRate == rate
      ensures configNonSco == PcmConfig(2, 44100, if rate == 44100 && fast then 512 else 1024, 2)
    {
      this.id, requestedRate := id, rate;
      var chosen := if rate == CONFIG_IN.rate && fast then CONFIG_IN_LOW_LATENCY else CONFIG_IN;
      configNonSco, config := chosen, chosen;
      pcm, standby, resampler, buffer, framesIn, session := None, true, false, false, 0, null;
    }

    /** get_next_buffer, called back by the resampler during a read. */
    method GetNextBuffer(want: nat, read: AudioCapture.Read) returns (status: int, offset: nat, frames: nat)
      requires Linked() && !standby && |read.samples| == session.buffer.Length
      modifies this`framesIn, session`framesIn, session`readStatus, session`log, session.buffer
      ensures Linked() && session == old(session)
      ensures session.log.taken == old(session.log).taken
      ensures session.log.captured ==
              old(session.log).captured + AudioCapture.Piece(session.stereo, read, old(framesIn) == 0)
      ensures status == if old(framesIn) > 0 then 0 else read.status
      ensures status == 0 ==> offset + frames <= session.buffer.Length
      ensures status == 0 ==>
                frames <= framesIn && session.buffer[offset..offset + frames] == session.log.pending[..frames]
    {
      status, offset, frames := session.GetNextBuffer(want, read);
      framesIn := session.framesIn;
    }

    /** release_buffer, called back by the resampler. */
    method ReleaseBuffer(frames: nat)
      requires Linked() && !standby && frames <= framesIn
      modifies this`framesIn, session`framesIn, session`log
      ensures Linked() && session == old(session) && framesIn == old(framesIn) - frames
      ensures frames <= |old(session.log).pending| && session.log.captured == old(session.log).captured
      ensures session.log.taken == old(session.log).taken + old(session.log).pending[..frames]
    {
      framesIn := framesIn - frames;
      session.ReleaseBuffer(frames);
    }
  }

  /** In the latest session of every stream, what was released is a prefix of what was read, and the
      stream's frame count is what is still to be released. */
  lemma StreamReleasesPrefix(inp: StreamIn)
    requires inp.Linked() && inp.session != null
    ensures inp.session.log.taken <= inp.session.log.captured
    ensures |inp.session.log.captured| == |inp.session.log.taken| + inp.framesIn
  {
    AudioCapture.BufferReleasesPrefix(inp.session);
  }

  // ---------- the invariant, on values ----------

  predicate Consistent(d: Dev, o: Out, i: In) { Core(d, o, i) && Marks(d, o, i) }

  /** Starting the output stream keeps the core, and the marks but for its own. */
  lemma StartOutKeeps(d: Dev, o: Out, i: In, pcm: nat, ready: bool)
    requires Consistent(d, o, i) && o.standby && pcm !in d.pcms
    ensures var ((d', o'), p) := StartOut(d, o, ActiveIn(d, i), 0, pcm, ready);
            var i' := Or(p, i);
            && Core(d', o', i') && o'.standby && (d'.activeIn.Some? <==> !i'.standby)
            && d'.activeOut == (if ready then Some(0) else None)
  {
    var o1 := SelectOut(d, o);
    SelectKeeps(d, o, i);
    if d.activeIn.Some? && Conflict(o1.config.rate, i.config.rate) {
      InStandbyKeeps(d, o1, i);
      var (d1, i1) := InStandby(d, i);
      OpenOutKeeps(d1, o1, i1, pcm, ready);
    } else {
      OpenOutKeeps(d, o1, i, pcm, ready);
    }
  }

  lemma StartInKeeps(d: Dev, o: Out, i: In, pcm: nat, ready: bool)
    requires Consistent(d, o, i) && i.standby && pcm !in d.pcms
    ensures var ((d', i'), p) := StartIn(d, i, ActiveOut(d, o), 0, pcm, ready);
            var o' := Or(p, o);
            && Core(d', o', i') && i'.standby && (d'.activeOut.Some? <==> !o'.standby)
            && d'.activeIn == (if ready then Some(0) else None)
  {
    var i1 := SelectIn(d, i);
    SelectKeeps(d, o, i);
    if d.activeOut.Some? && Conflict(i1.config.rate, o.config.rate) {
      OutStandbyKeeps(d, o, i1);
      var (d1, o1) := OutStandby(d, o);
      OpenInKeeps(d1, o1, i1, pcm, ready);
    } else {
      OpenInKeeps(d, o, i1, pcm, ready);
    }
  }

  /** The entry of a write, spelled out. */
  lemma WriteEntryMeans(d: Dev, o: Out, i: In, pcm: nat, ready: bool)
    requires Consistent(d, o, i) && pcm !in d.pcms
    ensures var (d', o', i') := WriteEntry(d, o, i, pcm, ready);
            && i'.standby == (i.standby || (o.standby && (d.outDevice.sco != 0) != (d.inDevice.sco != 0)))
            && i'.standby == (i.standby || (o.standby && !SameGroup(ChosenOut(d).rate, i.config.rate)))
            && (i'.standby == i.standby ==> i' == i) && i'.framesIn == i.framesIn && i'.config == i.config
            && (!o.standby ==> o' == o)
            && (o.standby ==> && o'.pcm == Some(pcm) && o'.standby == !ready
                              && o'.config == (if d.outDevice.sco != 0 then CONFIG_SCO else CONFIG_OUT)
                              && o'.bufferType == (if d.outDevice.sco != 0 then o.bufferType else Unknown))
            && o'.target == o.target && o'.threshold == o.threshold && o'.written == o.written
            && d'.outDevice == d.outDevice && d'.inDevice == d.inDevice && d'.screenOff == d.screenOff
  {
  }

  /** The entry of a read, spelled out. */
  lemma ReadEntryMeans(d: Dev, o: Out, i: In, pcm: nat, ready: bool)
    requires Consistent(d, o, i) && pcm !in d.pcms
    ensures var (d', o', i') := ReadEntry(d, o, i, pcm, ready);
            && o'.standby == (o.standby || (i.standby && (d.outDevice.sco != 0) != (d.inDevice.sco != 0)))
            && o'.standby == (o.standby || (i.standby && !SameGroup(ChosenIn(d, i).rate, o.config.rate)))
            && (o'.standby == o.standby ==> o' == o) && o'.written == o.written && o'.config == o.config
            && (!i.standby ==> i' == i)
            && (i.standby ==> i'.pcm == Some(pcm) && i'.standby == !ready)
            && i'.framesIn == (if i.standby && ready then 0 else i.framesIn)
            && d'.outDevice == d.outDevice && d'.inDevice == d.inDevice && d'.screenOff == d.screenOff
  {
  }

  /** Consistency does not depend on the threshold state and the frame count. */
  lemma TransferKeeps(d: Dev, o: Out, o': Out, i: In)
    requires Consistent(d, o, i)
    requires o' == o.(bufferType := o'.bufferType, target := o'.target, threshold := o'.threshold,
                      written := o'.written)
    ensures Consistent(d, o', i)
  {
  }

  // ---------- the device ----------

  /** What the environment decides during one start: which PCM opens and whether it is ready. */
  datatype Env = Env(pcm: nat, ready: bool)

  class AudioDevice {
    var outDevice: Mask
    var inDevice: Mask
    var screenOff: bool
    var activeOut: StreamOut?
    var activeIn: StreamIn?
    var pcms: set<nat>

    ghost function View(): Dev
      reads this
    {
      Dev(outDevice, inDevice, screenOff,
          if activeOut == null then None else Some(activeOut.id),
          if activeIn == null then None else Some(activeIn.id), pcms)
    }

    /** These are the device's two streams. */
    ghost predicate Owns(out: StreamOut, inp: StreamIn)
      reads this
    {
      out.id == 0 && inp.id == 0 && (activeOut == null || activeOut == out) && (activeIn == null || activeIn == inp)
    }

    /** The device with its two streams is consistent, as whenever the device lock is free. */
    ghost predicate Valid(out: StreamOut, inp: StreamIn)
      reads this, out, inp
    {
      Owns(out, inp) && Consistent(View(), out.View(), inp.View())
    }

    constructor ()
      ensures View() == Dev(SPEAKER, BUILTIN_MIC, false, None, None, {})
    {
      outDevice, inDevice, screenOff, activeOut, activeIn, pcms := SPEAKER, BUILTIN_MIC, false, null, null, {};
    }

    method ClosePcm(pcm: Option<nat>)
      modifies this`pcms
      ensures pcms == Closed(old(pcms), pcm)
    {
      if pcm.Some? { pcms := pcms - {pcm.value}; }
    }

    method DoOutStandby(out: StreamOut, ghost inp: StreamIn)
      requires Valid(out, inp)
      modifies this`pcms, this`activeOut, out
      ensures Valid(out, inp) && out.standby && activeOut == null
      ensures (View(), out.View()) == OutStandby(old(View()), old(out.View()))
      ensures !old(out.standby) ==> out.pcm == None && pcms == if inp.standby then {} else {inp.pcm.value}
      ensures out.config == old(out.config) && out.bufferType == old(out.bufferType)
      ensures out.target == old(out.target) && out.threshold == old(out.threshold) && out.written == old(out.written)
    {
      OutStandbyKeeps(View(), out.View(), inp.View());
      if !out.standby {
        ClosePcm(out.pcm);
        out.pcm := None;
        activeOut := null;
        if out.resampler { out.resampler := false; }
        if out.buffer { out.buffer := false; }
        out.standby := true;
      }
    }

    method DoInStandby(inp: StreamIn, ghost out: StreamOut)
      requires Owns(out, inp) && Core(View(), out.View(), inp.View()) && (activeIn == inp <==> !inp.standby)
      requires inp.Linked()
      modifies this`pcms, this`activeIn, inp, inp.Sessions()`open
      ensures Owns(out, inp) && Core(View(), out.View(), inp.View()) && inp.standby && activeIn == null
      ensures inp.Linked() && inp.session == old(inp.session)
      ensures (View(), inp.View()) == InStandby(old(View()), old(inp.View()))
      ensures !old(inp.standby) ==> inp.pcm == None
      ensures inp.config == old(inp.config) && inp.framesIn == old(inp.framesIn)
    {
      if !inp.standby {
        ReleaseInput(inp, out);
        inp.session.Close();
      }
    }

    /** The fields that do_in_standby resets. */
    method ReleaseInput(inp: StreamIn, ghost out: StreamOut)
      requires Owns(out, inp) && Core(View(), out.View(), inp.View()) && activeIn == inp && !inp.standby
      modifies this`pcms, this`activeIn, inp`pcm, inp`resampler, inp`buffer, inp`standby
      ensures Owns(out, inp) && Core(View(), out.View(), inp.View()) && inp.standby && activeIn == null
      ensures (View(), inp.View()) == InStandby(old(View()), old(inp.View())) && inp.pcm == None
    {
      InStandbyKeeps(View(), out.View(), inp.View());
      ClosePcm(inp.pcm);
      inp.pcm := None;
      activeIn := null;
      if inp.resampler { inp.resampler := false; }
      if inp.buffer { inp.buffer := false; }
      inp.standby := true;
    }

    /** start_output_stream: choose, make room for the rate, open. */
    method StartOutputStream(out: StreamOut, ghost inp: StreamIn, e: Env) returns (ok: bool)
      requires Valid(out, inp) && out.standby && e.pcm !in pcms && inp.Linked()
      modifies this, out, inp, inp.Sessions()`open
      ensures inp.Linked() && inp.session == old(inp.session)
      ensures ok == e.ready && Owns(out, inp) && outDevice == old(outDevice) && screenOff == old(screenOff)
      ensures var peer := ActiveIn(old(View()), old(inp.View()));
              var (x, p) := StartOut(old(View()), old(out.View()), peer, 0, e.pcm, e.ready);
              (View(), out.View()) == x && inp.View() == Or(p, old(inp.View()))
      ensures Core(View(), out.View(), inp.View()) && out.standby && (activeIn == inp <==> !inp.standby)
      ensures activeOut == if ok then out else null
    {
      StartOutKeeps(View(), out.View(), inp.View(), e.pcm, e.ready);
      SelectKeeps(View(), out.View(), inp.View());
      ChooseOut(out);
      if activeIn != null {
        if Conflict(out.config.rate, activeIn.config.rate) {
          DoInStandby(activeIn, out);
        }
      }
      ok := OpenOutPcm(out, e);
    }

    /** The choice of the PCM in start_output_stream. */
    method ChooseOut(out: StreamOut)
      modifies out`config, out`bufferType
      ensures out.View() == SelectOut(View(), old(out.View()))
    {
      if IsSco(outDevice) {
        out.config := CONFIG_SCO;
      } else {
        out.config := CONFIG_OUT;
        out.bufferType := Unknown;
      }
    }

    /** The end of start_output_stream. */
    method OpenOutPcm(out: StreamOut, e: Env) returns (ok: bool)
      requires out.config.PcmConfig?
      modifies this`pcms, this`activeOut, out`pcm, out`resampler, out`buffer
      ensures ok == e.ready && activeOut == if ok then out else old(activeOut)
      ensures (View(), out.View()) == OpenOut(old(View()), old(out.View()), out.id, e.pcm, e.ready)
    {
      out.pcm := Some(e.pcm);
      if !e.ready {
        return false;
      }
      pcms := pcms + {e.pcm};
      if OUT_RATE != out.config.rate {
        out.resampler := true;
        out.buffer := true;
      }
      activeOut := out;
      return true;
    }

    /** start_input_stream: choose, make room for the rate, open, begin a session. */
    method StartInputStream(inp: StreamIn, ghost out: StreamOut, e: Env) returns (ok: bool)
      requires Valid(out, inp) && inp.standby && e.pcm !in pcms && inp.Linked()
      modifies this, out, inp
      ensures inp.SessionOk(ok) && inp.framesIn == if ok then 0 else old(inp.framesIn)
      ensures if ok then fresh(inp.session) && fresh(inp.session.buffer) && inp.session.log == AudioCapture.EMPTY
              else inp.session == old(inp.session)
      ensures ok == e.ready && Owns(out, inp)
      ensures var peer := ActiveOut(old(View()), old(out.View()));
              var (x, p) := StartIn(old(View()), old(inp.View()), peer, 0, e.pcm, e.ready);
              (View(), inp.View()) == x && out.View() == Or(p, old(out.View()))
      ensures Core(View(), out.View(), inp.View()) && inp.standby && (activeOut == out <==> !out.standby)
      ensures activeIn == if ok then inp else null
    {
      ok := OpenInput(inp, out, e);
      if ok {
        inp.session := new AudioCapture.CaptureBuffer(inp.config.channels == 2, inp.config.periodSize);
      }
    }

    /** The same but for the new buffer. */
    method OpenInput(inp: StreamIn, ghost out: StreamOut, e: Env) returns (ok: bool)
      requires Valid(out, inp) && inp.standby && e.pcm !in pcms
      modifies this, out, inp`config, inp`pcm, inp`resampler, inp`buffer, inp`framesIn
      ensures ok == e.ready && Owns(out, inp) && inp.framesIn == if ok then 0 else old(inp.framesIn)
      ensures inp.config.PcmConfig? && inp.config.periodSize > 0
      ensures var peer := ActiveOut(old(View()), old(out.View()));
              var (x, p) := StartIn(old(View()), old(inp.View()), peer, 0, e.pcm, e.ready);
              (View(), inp.View()) == x && out.View() == Or(p, old(out.View()))
      ensures Core(View(), out.View(), inp.View()) && inp.standby && (activeOut == out <==> !out.standby)
      ensures activeIn == if ok then inp else null
    {
      StartInKeeps(View(), out.View(), inp.View(), e.pcm, e.ready);
      SelectKeeps(View(), out.View(), inp.View());
      if IsSco(inDevice) {
        inp.config := CONFIG_SCO;
      } else {
        inp.config := inp.configNonSco;
      }
      if activeOut != null {
        if Conflict(inp.config.rate, activeOut.config.rate) {
          DoOutStandby(activeOut, inp);
        }
      }
      ok := OpenInPcm(inp, e);
    }

    /** The end of start_input_stream. */
    method OpenInPcm(inp: StreamIn, e: Env) returns (ok: bool)
      requires inp.config.PcmConfig?
      modifies this`pcms, this`activeIn, inp`pcm, inp`resampler, inp`buffer, inp`framesIn
      ensures ok == e.ready && activeIn == if ok then inp else old(activeIn)
      ensures inp.framesIn == if ok then 0 else old(inp.framesIn)
      ensures (View(), inp.View()) == OpenIn(old(View()), old(inp.View()), inp.id, e.pcm, e.ready)
    {
      inp.pcm := Some(e.pcm);
      if !e.ready {
        return false;
      }
      pcms := pcms + {e.pcm};
      if inp.requestedRate != inp.config.rate {
        inp.resampler := true;
      }
      inp.buffer := true;
      inp.framesIn := 0;
      activeIn := inp;
      return true;
    }

    /** The part of out_write under the device lock.  Once it has succeeded, the stream is open on
        the PCM that its routing calls for, in one group of rates with the input stream if that is
        open too; if it has failed, the stream is still in standby. */
    method EnterWrite(out: StreamOut, ghost inp: StreamIn, e: Env)
      returns (started: bool, wanted: BufferType, sco: bool)
      requires Valid(out, inp) && e.pcm !in pcms && inp.Linked()
      modifies this, out, inp, inp.Sessions()`open
      ensures Valid(out, inp) && inp.Linked() && inp.session == old(inp.session)
      ensures started == !out.standby && started == (!old(out.standby) || e.ready)
      ensures started ==> && OpenFor(View(), out.View())
                          && (!inp.standby ==> Together(out.View(), inp.View()))
                          && (wanted.Long? <==> screenOff && inp.standby) && !wanted.Unknown?
                          && sco == (outDevice.sco != 0)
                          && wanted == WantedType(View()) && sco == IsSco(outDevice)
      // The capture stream is closed exactly if the output stream starts and one of the two is
      // routed to SCO and the other not, that is, their rates are of different groups.
      ensures inp.standby ==
              (old(inp.standby) || (old(out.standby) && (outDevice.sco != 0) != (inDevice.sco != 0)))
      ensures inp.standby ==
              (old(inp.standby) ||
               (old(out.standby) && !SameGroup(ChosenOut(old(View())).rate, old(inp.config).rate)))
      ensures inp.standby == old(inp.standby) ==> inp.View() == old(inp.View())
      ensures inp.framesIn == old(inp.framesIn) && inp.config == old(inp.config)
      // What happens to the output stream.
      ensures !old(out.standby) ==> out.View() == old(out.View())
      ensures old(out.standby) ==> && out.pcm == Some(e.pcm)
                                   && out.config == (if outDevice.sco != 0 then PcmConfig(1, 8000, 256, 4)
                                                     else PcmConfig(2, 44100, 512, 8))
                                   && out.bufferType == (if outDevice.sco != 0 then old(out.bufferType) else Unknown)
      ensures out.target == old(out.target) && out.threshold == old(out.threshold) && out.written == old(out.written)
      ensures outDevice == old(outDevice) && inDevice == old(inDevice) && screenOff == old(screenOff)
      ensures (View(), out.View(), inp.View()) ==
              WriteEntry(old(View()), old(out.View()), old(inp.View()), e.pcm, e.ready)
      // The machine makes the same change in one uninterrupted run.
      ensures EntryRuns(OutS(0), e.pcm, e.ready, old(View()), old(out.View()), old(inp.View()),
                        View(), out.View(), inp.View(), started)
    {
      WriteEntryRuns(View(), out.View(), inp.View(), e.pcm, e.ready);
      WriteEntryMeans(View(), out.View(), inp.View(), e.pcm, e.ready);
      started := true;
      if out.standby {
        started := StartOutputStream(out, inp, e);
        if started {
          out.standby := false;
        }
      }
      wanted := if screenOff && activeIn == null then Long else Short;
      sco := IsSco(outDevice);
    }

    /** The part of in_read under the device lock. */
    method EnterRead(inp: StreamIn, ghost out: StreamOut, e: Env) returns (started: bool)
      requires Valid(out, inp) && e.pcm !in pcms && inp.Linked()
      modifies this, out, inp
      ensures Valid(out, inp) && inp.Linked()
      ensures started == !inp.standby && started == (!old(inp.standby) || e.ready)
      ensures started ==> && inp.pcm.Some? && inp.pcm.value in pcms && inp.config.PcmConfig?
                          && inp.config == (if inDevice.sco != 0 then PcmConfig(1, 8000, 256, 4) else inp.configNonSco)
                          && (inp.resampler <==> inp.config.rate != inp.requestedRate)
                          && (!out.standby ==> Together(out.View(), inp.View()))
      // A stream that starts begins a new session with no frames; otherwise the session stays.
      ensures if old(inp.standby) && started
              then && inp.framesIn == 0 && fresh(inp.session) && fresh(inp.session.buffer)
                   && inp.session.log == AudioCapture.EMPTY && inp.pcm == Some(e.pcm)
              else inp.framesIn == old(inp.framesIn) && inp.session == old(inp.session)
      // The output stream is closed exactly if the capture stream starts and one of the two is
      // routed to SCO and the other not, that is, their rates are of different groups.
      ensures out.standby ==
              (old(out.standby) || (old(inp.standby) && (outDevice.sco != 0) != (inDevice.sco != 0)))
      ensures out.standby ==
              (old(out.standby) ||
               (old(inp.standby) && !SameGroup(ChosenIn(old(View()), old(inp.View())).rate, old(out.config).rate)))
      ensures out.standby == old(out.standby) ==> out.View() == old(out.View())
      ensures out.written == old(out.written) && out.config == old(out.config)
      ensures !old(inp.standby) ==> inp.View() == old(inp.View())
      ensures outDevice == old(outDevice) && inDevice == old(inDevice) && screenOff == old(screenOff)
      ensures (View(), out.View(), inp.View()) ==
              ReadEntry(old(View()), old(out.View()), old(inp.View()), e.pcm, e.ready)
      // The machine makes the same change in one uninterrupted run.
      ensures EntryRuns(InS(0), e.pcm, e.ready, old(View()), old(out.View()), old(inp.View()),
                        View(), out.View(), inp.View(), started)
    {
      ReadEntryRuns(View(), out.View(), inp.View(), e.pcm, e.ready);
      ReadEntryMeans(View(), out.View(), inp.View(), e.pcm, e.ready);
      started := true;
      if inp.standby {
        started := StartInputStream(inp, out, e);
        if started {
          inp.standby := false;
        }
      }
    }

    /** The same with the device: what the invariant speaks of is not touched. */
    method TransferOut(out: StreamOut, ghost inp: StreamIn, sco: bool, wanted: BufferType,
                       readings: nat -> Option<int>, unset: int, frames: nat, status: int)
      returns (ghost fill: int, polls: nat)
      requires Valid(out, inp) && !out.standby
      modifies out`bufferType, out`target, out`threshold, out`written
      ensures Valid(out, inp) && !out.standby
      ensures out.written == old(out.written) + if status == 0 then frames else 0
    {
      fill, polls := out.Transfer(sco, wanted, readings, unset, frames, status);
      TransferKeeps(View(), old(out.View()), out.View(), inp.View());
    }

    /** The routing branch of out_set_parameters. */
    method OutRoute(out: StreamOut, ghost inp: StreamIn, mask: Mask)
      requires Valid(out, inp)
      modifies this, out
      ensures Valid(out, inp)
      ensures outDevice == (if mask == NO_DEVICE then old(outDevice) else mask) && inDevice == old(inDevice)
      ensures out.standby == (old(out.standby) || (mask != NO_DEVICE && mask.sco != old(outDevice).sco))
      ensures out.standby == old(out.standby) ==> out.View() == old(out.View())
      ensures old(outDevice) == mask || mask == NO_DEVICE ==> View() == old(View()) && out.View() == old(out.View())
      ensures old(outDevice) != mask && mask != NO_DEVICE ==>
                var (d, o) := if ScoChanges(old(outDevice), mask) then OutStandby(old(View()), old(out.View()))
                              else (old(View()), old(out.View()));
                View() == d.(outDevice := mask) && out.View() == o
    {
      if outDevice != mask && mask != NO_DEVICE {
        if ScoChanges(outDevice, mask) {
          DoOutStandby(out, inp);
        }
        RouteKeeps(View(), out.View(), inp.View(), OutS(0), mask);
        outDevice := mask;
      }
    }

    /** The routing branch of in_set_parameters. */
    method InRoute(inp: StreamIn, ghost out: StreamOut, mask: Mask)
      requires Valid(out, inp) && inp.Linked()
      modifies this, inp, inp.Sessions()`open
      ensures Valid(out, inp) && inp.Linked() && inp.session == old(inp.session)
      ensures inDevice == (if mask == NO_DEVICE then old(inDevice) else mask) && outDevice == old(outDevice)
      ensures inp.standby == (old(inp.standby) || (mask != NO_DEVICE && mask.sco != old(inDevice).sco))
      ensures inp.standby == old(inp.standby) ==> inp.View() == old(inp.View())
      ensures old(inDevice) == mask || mask == NO_DEVICE ==> View() == old(View()) && inp.View() == old(inp.View())
      ensures old(inDevice) != mask && mask != NO_DEVICE ==>
                var (d, i) := if ScoChanges(old(inDevice), mask) then InStandby(old(View()), old(inp.View()))
                              else (old(View()), old(inp.View()));
                View() == d.(inDevice := mask) && inp.View() == i
    {
      if inDevice != mask && mask != NO_DEVICE {
        if ScoChanges(inDevice, mask) {
          DoInStandby(inp, out);
        }
        RouteKeeps(View(), out.View(), inp.View(), InS(0), mask);
        inDevice := mask;
      }
    }
  }

  /** The output stream's PCM is open and is the one its routing calls for. */
  predicate OpenFor(d: Dev, o: Out) {
    && o.pcm.Some? && o.pcm.value in d.pcms && o.config.PcmConfig?
    && (o.config == CONFIG_SCO <==> IsSco(d.outDevice))
    && (o.resampler <==> o.config.rate != OUT_RATE)
  }

  /** Two open streams have different PCMs in one group of rates. */
  predicate Together(o: Out, i: In) {
    o.config.PcmConfig? && i.config.PcmConfig? && SameGroup(o.config.rate, i.config.rate) && o.pcm != i.pcm
  }

  /** A new device with two new streams is consistent. */
  method OpenDevice(rate: nat, fast: bool) returns (dev: AudioDevice, out: StreamOut, inp: StreamIn)
    ensures fresh(dev) && fresh(out) && fresh(inp) && dev.Valid(out, inp) && inp.Linked() && out.standby && inp.standby
  {
    dev := new AudioDevice();
    out := new StreamOut(0);
    inp := new StreamIn(0, rate, fast);
  }
}
