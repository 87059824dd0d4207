/** The pull-style capture buffer: whole periods are read from the PCM, the right channel is
    dropped in place, and consumers take and release the frames in pieces of any size. */
module AudioCapture {
  import opened Options

  /** Every second sample, the left channel of interleaved stereo. */
  function LeftChannel(s: seq<int>): seq<int>
    requires |s| % 2 == 0
  {
    seq(|s| / 2, k requires 0 <= k < |s| / 2 => s[2 * k])
  }

  /** The loop that discards the right channel, used for capture periods and for playback
      routed to SCO.  It never reads a cell it has already overwritten. */
  method DropRightChannel(a: array<int>, frames: nat)
    requires 2 * frames <= a.Length
    modifies a
    ensures forall k :: 0 <= k < frames ==> a[k] == old(a[2 * k])
    ensures a[..frames] == LeftChannel(old(a[..2 * frames]))
    ensures a[frames..] == old(a[frames..])
  {
    ghost var was := a[..];
    var i := 1;
    while i < frames
      invariant 1 <= i && (i <= frames || frames == 0)
      invariant forall k :: 0 <= k < i && k < frames ==> a[k] == was[2 * k]
      invariant forall k :: i <= k < a.Length ==> a[k] == was[k]
      invariant frames == 0 ==> a[..] == was
    {
      a[i] := a[i * 2];
      i := i + 1;
    }
    assert |LeftChannel(was[..2 * frames])| == frames;
    assert a[..frames] == LeftChannel(was[..2 * frames]);
  }

  // ---------- a stereo read without resampling ----------

  /** Memory after `samples` were stored from `base` on. */
  function Stored(memory: seq<int>, base: nat, samples: seq<int>): seq<int>
    requires base + |samples| <= |memory|
  {
    memory[..base] + samples + memory[base + |samples|..]
  }

  /** The branch of in_read for a stereo PCM without a resampler.  The capture buffer starts at
      `base`; `samples` is what pcm_read leaves there, twice as many as the frames requested,
      whatever the size of the buffer.  The caller's target gets their left channel. */
  method ReadStereo(memory: array<int>, base: nat, samples: seq<int>, target: array<int>, frames: nat)
    requires |samples| == 2 * frames && base + 2 * frames <= memory.Length
    requires target != memory && frames <= target.Length
    modifies memory, target
    ensures memory[..] == Stored(old(memory[..]), base, samples)
    ensures forall k :: 0 <= k < |samples| ==> memory[base + k] == samples[k]
    ensures forall k :: 0 <= k < frames ==> target[k] == samples[2 * k]
    ensures target[..frames] == LeftChannel(samples)
    ensures target[frames..] == old(target[frames..])
  {
    forall k | 0 <= k < |samples| { memory[base + k] := samples[k]; }
    assert memory[base..base + 2 * frames] == samples;
    assert memory[..base] == old(memory[..base]) && memory[base + 2 * frames..] == old(memory[base + 2 * frames..]);
    CopyLeftChannel(memory, base, target, frames);
    assert memory[..] == memory[..base] + memory[base..base + 2 * frames] + memory[base + 2 * frames..];
  }

  /** The loop that copies the left channel of the samples at `base`. */
  method CopyLeftChannel(source: array<int>, base: nat, target: array<int>, frames: nat)
    requires source != target && base + 2 * frames <= source.Length && frames <= target.Length
    modifies target
    ensures forall k :: 0 <= k < frames ==> target[k] == source[base + 2 * k]
    ensures target[..frames] == LeftChannel(source[base..base + 2 * frames])
    ensures target[frames..] == old(target[frames..])
  {
    for i := 0 to frames
      invariant forall k :: 0 <= k < i ==> target[k] == source[base + 2 * k]
      invariant forall k :: i <= k < target.Length ==> target[k] == old(target[k])
    {
      target[i] := source[base + i * 2];
    }
  }

  /** Nothing outside the `size` cells from `base` on has changed. */
  predicate OutsideKept(before: seq<int>, after: seq<int>, base: nat, size: nat) {
    |after| == |before| && forall k :: 0 <= k < |before| && !(base <= k < base + size) ==> after[k] == before[k]
  }

  /** A request for more frames than a period, whose samples overwrite what lies behind the buffer. */
  lemma OverrunningRead(memory: seq<int>, base: nat, period: nat, frames: nat) returns (samples: seq<int>)
    requires period < frames && base + 2 * frames <= |memory|
    ensures |samples| == 2 * frames && Stored(memory, base, samples)[base + 2 * period] != memory[base + 2 * period]
  {
    samples := seq(2 * frames, k requires 0 <= k < 2 * frames => memory[base + k] + 1);
  }

  /** The capture buffer holds one period of stereo samples.  A read is sure to stay inside it if
      and only if it requests at most a period. */
  lemma ReadStaysInsideExactlyWhen(memory: seq<int>, base: nat, period: nat, frames: nat)
    requires base + 2 * frames <= |memory|
    ensures (forall samples :: |samples| == 2 * frames ==>
               OutsideKept(memory, Stored(memory, base, samples), base, 2 * period))
            <==> frames <= period
  {
    if frames > period {
      var samples := OverrunningRead(memory, base, period, frames);
      assert !OutsideKept(memory, Stored(memory, base, samples), base, 2 * period);
    }
  }

  // ---------- the buffer as a value ----------

  /** What pcm_read does with one period: it fills the buffer or fails with a non-zero code
      after having left anything in the buffer. */
  datatype Read = Read(status: int, samples: seq<int>)

  /** The mono frames of a period of a stereo or mono PCM. */
  function Frames(stereo: bool, samples: seq<int>): seq<int> {
    if stereo && |samples| % 2 == 0 then LeftChannel(samples) else samples
  }

  function PeriodSamples(stereo: bool, period: nat): nat { if stereo then 2 * period else period }

  datatype Op = Get(want: nat, read: Read) | Release(frames: nat)

  /** A consumer sees a queue of captured frames.  `pending` is the queue, `taken` what was
      released so far and `captured` the mono frames of all periods read successfully. */
  datatype Capture = Capture(pending: seq<int>, taken: seq<int>, captured: seq<int>)

  predicate Allowed(s: Capture, op: Op) {
    op.Release? ==> op.frames <= |s.pending|
  }

  function After(s: Capture, op: Op, stereo: bool): Capture
    requires Allowed(s, op)
  {
    match op
    case Get(_, read) =>
      if s.pending == [] && read.status == 0
      then s.(pending := Frames(stereo, read.samples), captured := s.captured + Frames(stereo, read.samples))
      else s
    case Release(n) => s.(pending := s.pending[n..], taken := s.taken + s.pending[..n])
  }

  function AfterAll(s: Capture, ops: seq<Op>, stereo: bool): Option<Capture> {
    if ops == [] then Some(s)
    else
      var before := AfterAll(s, ops[..|ops| - 1], stereo);
      if before.Some? && Allowed(before.value, ops[|ops| - 1])
      then Some(After(before.value, ops[|ops| - 1], stereo))
      else None
  }

  const EMPTY := Capture([], [], [])

  /** Released and pending frames together are exactly the captured ones. */
  predicate Balanced(s: Capture) { s.taken + s.pending == s.captured }

  lemma AfterKeepsBalance(s: Capture, op: Op, stereo: bool)
    requires Allowed(s, op)
    ensures Balanced(s) ==> Balanced(After(s, op, stereo))
  {
    if op.Release? { assert s.pending == s.pending[..op.frames] + s.pending[op.frames..]; }
  }

  /** Capture refinement: whatever the sequence of gets and partial releases in a session, the
      released frames followed by the pending ones are exactly the frames of all periods read,
      so what was released is a prefix of them: none lost, repeated or reordered. */
  lemma {:induction false} ReleasedIsPrefix(ops: seq<Op>, stereo: bool)
    requires AfterAll(EMPTY, ops, stereo).Some?
    ensures var s := AfterAll(EMPTY, ops, stereo).value; Balanced(s) && s.taken <= s.captured
  {
    if ops != [] {
      ReleasedIsPrefix(ops[..|ops| - 1], stereo);
      AfterKeepsBalance(AfterAll(EMPTY, ops[..|ops| - 1], stereo).value, ops[|ops| - 1], stereo);
    }
  }

  // ---------- the buffer in place ----------

  const ENODEV := -19

  /** The capture fields of struct stream_in.  `log` is the queue view of the session. */
  class CaptureBuffer {
    const stereo: bool
    const period: nat
    var open: bool
    var buffer: array<int>
    var framesIn: nat
    var readStatus: int
    ghost var log: Capture

    ghost predicate Valid()
      reads this, buffer
    {
      && 0 < period && buffer.Length == PeriodSamples(stereo, period)
      && framesIn <= period
      && (open && framesIn > 0 ==> readStatus == 0)
      && log.pending == Pending() && Balanced(log)
    }

    /** The frames not yet released: the tail of the period. */
    ghost function Pending(): seq<int>
      reads this, buffer
      requires buffer.Length == PeriodSamples(stereo, period) && framesIn <= period
    {
      assert period <= buffer.Length;
      buffer[period - framesIn..period]
    }

    /** start_input_stream: a new session begins with no frames. */
    constructor (stereo: bool, period: nat)
      requires 0 < period
      ensures Valid() && open && log == EMPTY && fresh(buffer)
      ensures this.stereo == stereo && this.period == period
    {
      this.stereo, this.period := stereo, period;
      open, framesIn, readStatus := true, 0, 0;
      buffer := new int[PeriodSamples(stereo, period)];
      log := EMPTY;
    }

    /** do_in_standby closes the PCM; the frame count stays. */
    method Close()
      requires Valid()
      modifies this`open
      ensures Valid() && !open
    {
      open := false;
    }

    /** pcm_read into the buffer, then the right channel is dropped if the read succeeded. */
    method ReadPeriod(read: Read)
      requires buffer.Length == PeriodSamples(stereo, period) == |read.samples|
      modifies buffer
      ensures read.status == 0 ==> buffer[..period] == Frames(stereo, read.samples)
      ensures read.status == 0 ==>
                forall k :: 0 <= k < period ==> buffer[k] == read.samples[if stereo then 2 * k else k]
    {
      forall k | 0 <= k < buffer.Length { buffer[k] := read.samples[k]; }
      assert buffer[..] == read.samples;
      if read.status == 0 && stereo {
        assert buffer[..2 * period] == read.samples;
        DropRightChannel(buffer, period);
      } else {
        assert !stereo ==> buffer[..period] == read.samples;
      }
    }

    /** get_next_buffer.  On success the caller may use `frames` samples at `offset`; on a read
        error it gets none. */
    method GetNextBuffer(want: nat, read: Read) returns (status: int, offset: nat, frames: nat)
      requires Valid() && |read.samples| == PeriodSamples(stereo, period)
      modifies this`framesIn, this`readStatus, this`log, buffer
      ensures Valid()
      ensures !open ==> status == -19 && frames == 0 && log == old(log)
      ensures open ==> log == After(old(log), Get(want, read), stereo)
      ensures open ==> status == (if old(framesIn) > 0 then 0 else read.status)
      ensures status == readStatus
      ensures status != 0 ==> frames == 0
      ensures status == 0 ==> frames == (if want > framesIn then framesIn else want)
      ensures status == 0 ==> offset + frames <= period && buffer[offset..offset + frames] == log.pending[..frames]
      ensures status == 0 && want > 0 ==> frames > 0
      // After a read the frames are the left channel of what was read, from its start.
      ensures status == 0 && old(framesIn) == 0 ==>
                offset == 0 && forall k :: 0 <= k < frames ==> buffer[k] == read.samples[if stereo then 2 * k else k]
    {
      offset, frames := 0, 0;
      if !open {
        readStatus := ENODEV;
        return ENODEV, offset, frames;
      }
      if framesIn == 0 {
        Refill(want, read);
        if readStatus != 0 {
          return readStatus, offset, frames;
        }
      }
      status := readStatus;
      offset, frames := HandOut(want);
    }

    /** The end of get_next_buffer: the first pending frames, as many as wanted and there. */
    method HandOut(want: nat) returns (offset: nat, frames: nat)
      requires Valid()
      ensures frames == (if want > framesIn then framesIn else want) && offset == period - framesIn
      ensures frames <= |log.pending| && buffer[offset..offset + frames] == log.pending[..frames]
    {
      frames := if want > framesIn then framesIn else want;
      offset := period - framesIn;
      HeadOfSlice(buffer, offset, period, frames);
    }

    /** The read branch of get_next_buffer: the next period becomes the queue, unless the read
        fails. */
    method Refill(want: nat, read: Read)
      requires Valid() && open && framesIn == 0 && |read.samples| == PeriodSamples(stereo, period)
      modifies this`framesIn, this`readStatus, this`log, buffer
      ensures Valid() && readStatus == read.status && framesIn == if read.status == 0 then period else 0
      ensures log == After(old(log), Get(want, read), stereo)
      ensures read.status == 0 ==>
                forall k :: 0 <= k < period ==> buffer[k] == read.samples[if stereo then 2 * k else k]
    {
      readStatus := read.status;
      ReadPeriod(read);
      if readStatus == 0 {
        framesIn := period;
        AfterKeepsBalance(log, Get(want, read), stereo);
        log := After(log, Get(want, read), stereo);
      }
    }

    /** release_buffer: the consumer gives back the first `frames` frames it was shown. */
    method ReleaseBuffer(frames: nat)
      requires Valid() && frames <= framesIn
      modifies this`framesIn, this`log
      ensures Valid()
      ensures log == After(old(log), Release(frames), stereo)
      ensures framesIn == old(framesIn) - frames
      ensures frames <= |old(log).pending| && log.captured == old(log).captured
      ensures log.taken == old(log).taken + old(log).pending[..frames]
      ensures log.pending == old(log).pending[frames..]
    {
      AfterKeepsBalance(log, Release(frames), stereo);
      log := After(log, Release(frames), stereo);
      framesIn := framesIn - frames;
    }

    /** The memcpy of read_frames. */
    method CopyOut(target: array<int>, done: nat, offset: nat, frames: nat)
      requires target != buffer && done + frames <= target.Length && offset + frames <= buffer.Length
      modifies target
      ensures target[..done] == old(target[..done])
      ensures target[done..done + frames] == buffer[offset..offset + frames]
    {
      forall k | 0 <= k < frames { target[done + k] := buffer[offset + k]; }
    }

    /** One turn of read_frames' loop: get the frames still missing from `target`, as many as
        there are, copy and release them.  `fetched` tells whether a period was read. */
    method ReadChunk(target: array<int>, done: nat, read: Read) returns (status: int, frames: nat, fetched: bool)
      requires Valid() && target != buffer && done < target.Length
      requires |read.samples| == PeriodSamples(stereo, period)
      modifies this`framesIn, this`readStatus, this`log, buffer, target
      ensures Valid() && done + frames <= target.Length && (status == 0 <==> frames > 0)
      ensures target[..done] == old(target[..done])
      ensures fetched == (open && old(framesIn) == 0)
      ensures status == if !open then -19 else if fetched then read.status else 0
      ensures Moved(old(log), log, target[done..done + frames], Piece(stereo, read, fetched))
    {
      fetched := open && framesIn == 0;
      ghost var before := log;
      var offset;
      status, offset, frames := GetNextBuffer(target.Length - done, read);
      assert frames <= framesIn == |log.pending|;
      if open { ChunkMoves(before, Get(target.Length - done, read), stereo, frames); }
      if status == 0 {
        CopyOut(target, done, offset, frames);
      }
      ReleaseBuffer(frames);
    }

    /** The same, with the account of the whole call: since `start`, the first `done` frames of the
        target were released and the first `polls` reads were made. */
    method ReadTurn(target: array<int>, done: nat, device: nat -> Read, polls: nat, ghost start: Capture)
      returns (status: int, done': nat, polls': nat)
      requires Valid() && target != buffer && done < target.Length
      requires |device(polls).samples| == PeriodSamples(stereo, period)
      requires Moved(start, log, target[..done], Collected(device, stereo, polls))
      modifies this`framesIn, this`readStatus, this`log, buffer, target
      ensures Valid() && done' <= target.Length && if status == 0 then done < done' else done == done'
      ensures if open && polls' == polls + 1 then status == device(polls).status
              else polls' == polls && status == if open then 0 else -19
      ensures Moved(start, log, target[..done'], Collected(device, stereo, polls'))
    {
      ghost var before, got := log, target[..done];
      var frames, fetched;
      status, frames, fetched := ReadChunk(target, done, device(polls));
      ghost var more := target[done..done + frames];
      MovedOn(start, before, log, got, more, device, stereo, polls, fetched);
      assert target[..done + frames] == got + more;
      done' := done + frames;
      polls' := if fetched then polls + 1 else polls;
    }

    /** read_frames without a resampler, into a buffer for exactly the frames requested.
        `device(k)` is what the k-th pcm_read yields.  The call returns the requested number of
        frames, or the status of the first read that failed, or an error if the PCM is closed;
        `polls` counts the reads made. */
    method ReadFrames(target: array<int>, device: nat -> Read) returns (result: int, done: nat, polls: nat)
      requires Valid() && target != buffer
      requires forall k: nat :: |device(k).samples| == PeriodSamples(stereo, period)
      modifies this`framesIn, this`readStatus, this`log, buffer, target
      ensures Valid() && done <= target.Length
      // What the caller got is what was released to it, in order, and what was read is accounted for.
      ensures Moved(old(log), log, target[..done], Collected(device, stereo, polls))
      ensures forall k :: 0 <= k < polls - 1 ==> device(k).status == 0
      ensures if done == target.Length then result == done
              else if open then polls > 0 && result == device(polls - 1).status && result != 0
              else result == -19 && done == 0 && polls == 0
    {
      done, polls := 0, 0;
      ghost var start := log;
      while done < target.Length
        invariant Valid() && done <= target.Length
        invariant Moved(start, log, target[..done], Collected(device, stereo, polls))
        invariant forall k :: 0 <= k < polls ==> device(k).status == 0
        invariant !open ==> done == 0 && polls == 0
      {
        var status;
        status, done, polls := ReadTurn(target, done, device, polls, start);
        if status != 0 {
          return status, done, polls;
        }
      }
      result := done;
    }
  }

  lemma HeadOfSlice(a: array<int>, from: nat, to: nat, n: nat)
    requires from + n <= to <= a.Length
    ensures a[from..to][..n] == a[from..from + n]
  {
  }

  /** From `before` to `after`, `got` was released and `read` was captured, in order. */
  ghost predicate Moved(before: Capture, after: Capture, got: seq<int>, read: seq<int>) {
    after.taken == before.taken + got && after.captured == before.captured + read
  }

  /** What one read adds to the captured frames, if it was made and succeeded. */
  function Piece(stereo: bool, read: Read, fetched: bool): seq<int> {
    if fetched && read.status == 0 then Frames(stereo, read.samples) else []
  }

  lemma MovedTwice(a: Capture, b: Capture, c: Capture, got: seq<int>, got': seq<int>, read: seq<int>, read': seq<int>)
    requires Moved(a, b, got, read) && Moved(b, c, got', read')
    ensures Moved(a, c, got + got', read + read')
  {
    assert (a.taken + got) + got' == a.taken + (got + got');
    assert (a.captured + read) + read' == a.captured + (read + read');
  }

  /** The frames of the first `n` reads that succeeded. */
  ghost function Collected(device: nat -> Read, stereo: bool, n: nat): seq<int> {
    if n == 0 then []
    else if device(n - 1).status == 0 then Collected(device, stereo, n - 1) + Frames(stereo, device(n - 1).samples)
    else Collected(device, stereo, n - 1)
  }

  /** A get followed by a release moves the first pending frames. */
  lemma ChunkMoves(s: Capture, get: Op, stereo: bool, frames: nat)
    requires get.Get? && frames <= |After(s, get, stereo).pending|
    ensures var shown := After(s, get, stereo);
            Moved(s, After(shown, Release(frames), stereo), shown.pending[..frames],
                  Piece(stereo, get.read, s.pending == []))
  {
  }

  /** One more read, or none, of the first `n` and what it released. */
  lemma MovedOn(a: Capture, b: Capture, c: Capture, got: seq<int>, more: seq<int>,
                device: nat -> Read, stereo: bool, n: nat, fetched: bool)
    requires Moved(a, b, got, Collected(device, stereo, n))
    requires Moved(b, c, more, Piece(stereo, device(n), fetched))
    ensures Moved(a, c, got + more, Collected(device, stereo, if fetched then n + 1 else n))
  {
    var piece := Piece(stereo, device(n), fetched);
    MovedTwice(a, b, c, got, more, Collected(device, stereo, n), piece);
    if piece == [] { assert Collected(device, stereo, n) + piece == Collected(device, stereo, n); }
  }

  /** In every capture buffer, after any calls, what was released is a prefix of what was read, and
      with the pending frames it is all of it. */
  lemma BufferReleasesPrefix(b: CaptureBuffer)
    requires b.Valid()
    ensures b.log.taken + b.Pending() == b.log.captured && b.log.taken <= b.log.captured
  {
  }
}
