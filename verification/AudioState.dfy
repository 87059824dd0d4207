/** The audio device and its streams as values, and the state changes that
    audio/audio_hw.c makes to them while it holds the locks.  A stream is named by
    a number; the device records the number of the active stream of each kind. */
module AudioState {
  import opened Options

  /** `NoConfig` is the null pointer an output stream starts with. */
  datatype PcmConfig = NoConfig | PcmConfig(channels: nat, rate: nat, periodSize: nat, periodCount: nat)

  const CONFIG_OUT := PcmConfig(2, 44100, 512, 8)
  const CONFIG_IN := PcmConfig(2, 44100, 1024, 2)
  const CONFIG_IN_LOW_LATENCY := PcmConfig(2, 44100, 512, 2)
  const CONFIG_SCO := PcmConfig(1, 8000, 256, 4)

  const OUT_RATE: nat := 44100
  const SHORT_PERIOD_COUNT: nat := 2
  const LONG_PERIOD_COUNT: nat := 8

  /** A mask of audio devices, split into its Bluetooth SCO bits and the other bits, each part
      read as a number. */
  datatype Mask = Mask(sco: nat, others: nat)

  const NO_DEVICE := Mask(0, 0)

  // The routing adev_open starts with (values of system/audio.h).
  const SPEAKER := Mask(0, 2)
  const BUILTIN_MIC := Mask(0, 4)

  datatype BufferType = Unknown | Short | Long

  /** `pcms` is the set of PCM devices the kernel has open for this device. */
  datatype Dev = Dev(outDevice: Mask, inDevice: Mask, screenOff: bool,
                     activeOut: Option<nat>, activeIn: Option<nat>, pcms: set<nat>)

  datatype Out = Out(pcm: Option<nat>, config: PcmConfig, standby: bool, resampler: bool, buffer: bool,
                     bufferType: BufferType, target: int, threshold: int, written: nat)

  datatype In = In(pcm: Option<nat>, config: PcmConfig, configNonSco: PcmConfig, standby: bool,
                   requestedRate: nat, resampler: bool, buffer: bool, framesIn: nat)

  /** The test with which the HAL decides that a re-routing turns SCO on or off: the exclusive
      or of the SCO bits is not zero. */
  predicate ScoChanges(before: Mask, after: Mask) { after.sco != before.sco }

  predicate IsSco(mask: Mask) { mask.sco != 0 }

  /** The rate test of start_output_stream and start_input_stream: `mine` is about to be
      opened and `other` is open. */
  predicate Conflict(mine: nat, other: nat) {
    || (mine % 8000 == 0 && other % 8000 != 0)
    || (mine % 11025 == 0 && other % 11025 != 0)
  }

  /** The hardware's rule: two open PCMs share one group of rates. */
  predicate SameGroup(a: nat, b: nat) {
    (a % 8000 == 0 && b % 8000 == 0) || (a % 11025 == 0 && b % 11025 == 0)
  }

  /** The rates of the two groups, as the hardware lists them. */
  const GROUP_1: set<nat> := {11025, 22050, 44100}
  const GROUP_2: set<nat> := {8000, 16000, 32000, 48000}

  /** For the listed rates, two conflict exactly if they are of different groups. */
  lemma ConflictIsOtherGroup(a: nat, b: nat)
    requires a in GROUP_1 + GROUP_2 && b in GROUP_1 + GROUP_2
    ensures Conflict(a, b) <==> (a in GROUP_1) != (b in GROUP_1)
    ensures SameGroup(a, b) <==> (a in GROUP_1) == (b in GROUP_1)
  {
  }

  function InitOut(): Out {
    Out(None, NoConfig, true, false, false, Unknown, 0, 0, 0)
  }

  function InitIn(rate: nat, fast: bool): In {
    var config := if rate == CONFIG_IN.rate && fast then CONFIG_IN_LOW_LATENCY else CONFIG_IN;
    In(None, config, config, true, rate, false, false, 0)
  }

  function Closed(pcms: set<nat>, pcm: Option<nat>): set<nat> {
    if pcm.Some? then pcms - {pcm.value} else pcms
  }

  /** do_out_standby */
  function OutStandby(d: Dev, o: Out): (Dev, Out) {
    if o.standby then (d, o)
    else (d.(activeOut := None, pcms := Closed(d.pcms, o.pcm)),
          o.(pcm := None, resampler := false, buffer := false, standby := true))
  }

  /** do_in_standby; `frames_in` keeps its value. */
  function InStandby(d: Dev, i: In): (Dev, In) {
    if i.standby then (d, i)
    else (d.(activeIn := None, pcms := Closed(d.pcms, i.pcm)),
          i.(pcm := None, resampler := false, buffer := false, standby := true))
  }

  /** The first part of start_output_stream: choose the PCM from the routing. */
  function SelectOut(d: Dev, o: Out): Out {
    if IsSco(d.outDevice) then o.(config := CONFIG_SCO)
    else o.(config := CONFIG_OUT, bufferType := Unknown)
  }

  function SelectIn(d: Dev, i: In): In {
    i.(config := if IsSco(d.inDevice) then CONFIG_SCO else i.configNonSco)
  }

  /** The last part of start_output_stream: open PCM `pcm`, which turns out to be ready or
      not.  A failed open leaves the closed PCM in the stream. */
  function OpenOut(d: Dev, o: Out, id: nat, pcm: nat, ready: bool): (Dev, Out)
    requires o.config.PcmConfig?
  {
    if !ready then (d, o.(pcm := Some(pcm)))
    else
      var differs := OUT_RATE != o.config.rate;
      (d.(activeOut := Some(id), pcms := d.pcms + {pcm}),
       o.(pcm := Some(pcm), resampler := o.resampler || differs, buffer := o.buffer || differs))
  }

  function OpenIn(d: Dev, i: In, id: nat, pcm: nat, ready: bool): (Dev, In)
    requires i.config.PcmConfig?
  {
    if !ready then (d, i.(pcm := Some(pcm)))
    else
      (d.(activeIn := Some(id), pcms := d.pcms + {pcm}),
       i.(pcm := Some(pcm), resampler := i.resampler || i.requestedRate != i.config.rate,
          buffer := true, framesIn := 0))
  }

  /** The buffer type that out_write reads under the device lock. */
  function WantedType(d: Dev): BufferType {
    if d.screenOff && d.activeIn.None? then Long else Short
  }
}
